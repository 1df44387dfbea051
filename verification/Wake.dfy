/** Wakes against lifecycle operations on one compute service: `wake` and `wakeLocked` of
    src/scheduler.ts, and the lifecycle body of src/engine.ts that runs under the same key.

    The operation lock (module OpLock) runs the bodies on one key one at a time, in the order they were
    enqueued; here it is that queue. The head runs once it is granted, which may also depend on its other
    keys. */
module Wake {

  datatype Option<T> = None | Some(value: T)

  type WakeId = int

  datatype Desired = Running | Stopped | Suspended

  datatype Door = Traffic | Api | Deploy

  /** How far a wake's body is: before its checks, past them, with room made, or with the container
      started. */
  datatype Stage = Fresh | Checked | Roomed | Started

  /** A wake run inside an operation that holds the key already. */
  datatype Inline = Inline(id: WakeId, door: Door, stage: Stage)

  /** A wake queued on the lock, a lifecycle verb, or any other operation (a deploy, a sleep, a delete). */
  datatype Kind = Waking(id: WakeId, door: Door, stage: Stage) | Lifecycle | Other

  /** `inner` is a wake it runs itself, and `awaits` the wake it does not go on before. */
  datatype Op = Op(kind: Kind, running: bool, inner: Option<Inline>, awaits: Option<WakeId>)

  /** A `docker start` as it happened: for which wake, through which door, and what the developer wanted at
      that instant. */
  datatype Start = Start(id: WakeId, door: Door, desired: Desired)

  /** `wakes` is the key's entry in the map. A wake that settled, and whose `finally` is still to come, is
      in `settling`, true for an inner one. `rooms` are the wakes that have made room. */
  datatype State = State(target: bool, desired: Desired, queue: seq<Op>, wakes: Option<WakeId>,
                         settling: map<WakeId, bool>, rooms: set<WakeId>, starts: seq<Start>, next: WakeId)

  // ---- what the steps do -----------------------------------------------------------------------

  predicate Refuses(desired: Desired, door: Door) {
    door.Traffic? && !desired.Running?
  }

  /** A call from outside joins the wake in the map, or queues one and puts it there. */
  function Asked(s: State, door: Door): State {
    if !s.target || Refuses(s.desired, door) || s.wakes.Some? then s
    else s.(queue := s.queue + [Op(Waking(s.next, door, Fresh), false, None, None)], wakes := Some(s.next), next := s.next + 1)
  }

  predicate HeadRuns(s: State) {
    s.queue != [] && s.queue[0].running
  }

  /** The operation at the head runs and waits for nothing. */
  predicate HeadActs(s: State) {
    HeadRuns(s) && s.queue[0].inner.None? && s.queue[0].awaits.None?
  }

  /** A call from inside an operation on the key runs at once, whatever is queued, and the operation waits
      for it; it is put in the map only when that is free. */
  function AskedInside(s: State, door: Door): State
    requires HeadActs(s)
  {
    if !s.target || Refuses(s.desired, door) then s
    else s.(queue := s.queue[0 := s.queue[0].(inner := Some(Inline(s.next, door, Fresh)), awaits := Some(s.next))],
            wakes := if s.wakes.None? then Some(s.next) else s.wakes, next := s.next + 1)
  }

  /** What it must not do instead: join the wake the map holds, as a call from outside does. */
  function JoinedInside(s: State, door: Door): State
    requires HeadActs(s)
  {
    if !s.target || Refuses(s.desired, door) || s.wakes.None? then AskedInside(s, door)
    else s.(queue := s.queue[0 := s.queue[0].(awaits := s.wakes)])
  }

  /** Nothing in the queue is the wake, nor is the one that runs inside the head. */
  predicate HasSettled(s: State, id: WakeId) {
    && (forall i :: 0 <= i < |s.queue| && s.queue[i].kind.Waking? ==> s.queue[i].kind.id != id)
    && (s.queue != [] && s.queue[0].inner.Some? ==> s.queue[0].inner.value.id != id)
  }

  function GoneOn(s: State): State
    requires HeadRuns(s)
  {
    s.(queue := s.queue[0 := s.queue[0].(awaits := None)])
  }

  /** The first stretch of the body: the target again, and the developer's intent again. */
  function StageAfterChecks(s: State, door: Door): Option<Stage> {
    if !s.target || Refuses(s.desired, door) then None else Some(Checked)
  }

  function ReleasedHead(s: State): State
    requires HeadRuns(s)
  {
    s.(queue := s.queue[1..],
       settling := if s.queue[0].kind.Waking? then s.settling[s.queue[0].kind.id := false] else s.settling)
  }

  predicate HeadWakes(s: State, stage: Stage) {
    HeadRuns(s) && s.queue[0].kind.Waking? && s.queue[0].kind.stage == stage
  }

  function BodyBegun(s: State): State
    requires HeadWakes(s, Fresh)
  {
    var stage := StageAfterChecks(s, s.queue[0].kind.door);
    if stage.None? then ReleasedHead(s)
    else s.(queue := s.queue[0 := s.queue[0].(kind := s.queue[0].kind.(stage := stage.value))])
  }

  function WithStage(s: State, stage: Stage): State
    requires HeadRuns(s) && s.queue[0].kind.Waking?
  {
    s.(queue := s.queue[0 := s.queue[0].(kind := s.queue[0].kind.(stage := stage))])
  }

  /** The eviction pass returned: there is room, or nobody to take it from. */
  function BodyRoomed(s: State): State
    requires HeadWakes(s, Checked)
  {
    WithStage(s, Roomed).(rooms := s.rooms + {s.queue[0].kind.id})
  }

  function BodyStarted(s: State): State
    requires HeadWakes(s, Roomed)
  {
    WithStage(s, Started).(starts := s.starts + [Start(s.queue[0].kind.id, s.queue[0].kind.door, s.desired)])
  }

  predicate InnerWakes(s: State, stage: Stage) {
    HeadRuns(s) && s.queue[0].inner.Some? && s.queue[0].inner.value.stage == stage
  }

  function WithInner(s: State, stage: Stage): State
    requires HeadRuns(s) && s.queue[0].inner.Some?
  {
    s.(queue := s.queue[0 := s.queue[0].(inner := Some(s.queue[0].inner.value.(stage := stage)))])
  }

  /** The inner wake settles. */
  function InnerEnded(s: State): State
    requires HeadRuns(s) && s.queue[0].inner.Some?
  {
    s.(queue := s.queue[0 := s.queue[0].(inner := None)], settling := s.settling[s.queue[0].inner.value.id := true])
  }

  function InnerBegun(s: State): State
    requires InnerWakes(s, Fresh)
  {
    var stage := StageAfterChecks(s, s.queue[0].inner.value.door);
    if stage.None? then InnerEnded(s) else WithInner(s, stage.value)
  }

  function InnerRoomed(s: State): State
    requires InnerWakes(s, Checked)
  {
    WithInner(s, Roomed).(rooms := s.rooms + {s.queue[0].inner.value.id})
  }

  function InnerStarted(s: State): State
    requires InnerWakes(s, Roomed)
  {
    WithInner(s, Started).(starts := s.starts + [Start(s.queue[0].inner.value.id, s.queue[0].inner.value.door, s.desired)])
  }

  /** A queued wake's `finally` empties the map whatever it holds; an inner wake's only takes out its own
      entry. */
  function FinallyRun(s: State, id: WakeId): State
    requires id in s.settling
  {
    s.(settling := s.settling - {id}, wakes := if !s.settling[id] || s.wakes == Some(id) then None else s.wakes)
  }

  // ---- the program -----------------------------------------------------------------------------

  class Scheduler {
    var target: bool
    var desired: Desired
    var queue: seq<Op>
    var wakes: Option<WakeId>
    var settling: map<WakeId, bool>
    /** The wakes whose eviction pass has returned. */
    var rooms: set<WakeId>
    var starts: seq<Start>
    var next: WakeId

    ghost function View(): State
      reads this
    {
      State(target, desired, queue, wakes, settling, rooms, starts, next)
    }

    constructor (target: bool, desired: Desired)
      ensures View() == State(target, desired, [], None, map[], {}, [], 0)
    {
      this.target, this.desired := target, desired;
      queue, wakes, settling, rooms, starts, next := [], None, map[], {}, [], 0;
    }

    /** `wake`, from outside any operation on the key. None where it rejects at once, otherwise the wake the
        caller waits for. */
    method Wake(door: Door) returns (joined: Option<WakeId>)
      modifies this
      ensures View() == Asked(old(View()), door)
      ensures joined == if !old(target) || Refuses(old(desired), door) then None else wakes
    {
      if !target || Refuses(desired, door) {
        return None;
      }
      if wakes.None? {
        queue := queue + [Op(Waking(next, door, Fresh), false, None, None)];
        wakes := Some(next);
        next := next + 1;
      }
      return wakes;
    }

    /** `wake`, inside an operation that owns the key. */
    method WakeInside(door: Door)
      requires HeadActs(View())
      modifies this
      ensures View() == AskedInside(old(View()), door)
    {
      if !target || Refuses(desired, door) {
        return;
      }
      queue := queue[0 := queue[0].(inner := Some(Inline(next, door, Fresh)), awaits := Some(next))];
      if wakes.None? {
        wakes := Some(next);
      }
      next := next + 1;
    }

    /** `wakeLocked` up to its first await, of the wake at the head of the queue. */
    method BeginBody()
      requires HeadWakes(View(), Fresh)
      modifies this
      ensures View() == BodyBegun(old(View()))
    {
      if !target || Refuses(desired, queue[0].kind.door) {
        settling := settling[queue[0].kind.id := false];
        queue := queue[1..];
        return;
      }
      queue := queue[0 := queue[0].(kind := queue[0].kind.(stage := Checked))];
    }

    /** `evictForRoom` has returned. */
    method RoomMade()
      requires HeadWakes(View(), Checked)
      modifies this
      ensures View() == BodyRoomed(old(View()))
    {
      rooms := rooms + {queue[0].kind.id};
      queue := queue[0 := queue[0].(kind := queue[0].kind.(stage := Roomed))];
    }

    /** The `docker start`, only after that. */
    method StartContainer()
      requires HeadWakes(View(), Roomed)
      modifies this
      ensures View() == BodyStarted(old(View()))
    {
      starts := starts + [Start(queue[0].kind.id, queue[0].kind.door, desired)];
      queue := queue[0 := queue[0].(kind := queue[0].kind.(stage := Started))];
    }

    /** The `finally` of a wake that settled. */
    method Settle(id: WakeId)
      requires id in settling
      modifies this
      ensures View() == FinallyRun(old(View()), id)
    {
      if !settling[id] || wakes == Some(id) {
        wakes := None;
      }
      settling := settling - {id};
    }
  }

  // ---- whole runs ------------------------------------------------------------------------------

  datatype Event =
    | Ask(door: Door)
    | Enqueue(lifecycle: bool)
    | Grant
    | Begin
    | Room
    | StartIt
    | Release
    | AskInside(door: Door)
    | BeginInner
    | RoomInner
    | StartInner
    | EndInner
    | GoOn
    | Finally(id: WakeId)
    | WriteDesired(desired: Desired)
    | WriteTarget(target: bool)
    | Forget

  /** Intent is written by lifecycle bodies only; rows come and go, and keys are forgotten, under other
      operations on the key. An operation asks for a wake inside it through the api or the deploy door, and
      does nothing, nor ends, while it waits for one. */
  predicate CanHappen(s: State, e: Event) {
    match e
    case Ask(_) => true
    case Enqueue(_) => true
    case Grant => s.queue != [] && !s.queue[0].running
    case Begin => HeadWakes(s, Fresh)
    case Room => HeadWakes(s, Checked)
    case StartIt => HeadWakes(s, Roomed)
    case Release => HeadActs(s) && (s.queue[0].kind.Waking? ==> s.queue[0].kind.stage != Fresh)
    case AskInside(door) => HeadActs(s) && !s.queue[0].kind.Waking? && !door.Traffic?
    case BeginInner => InnerWakes(s, Fresh)
    case RoomInner => InnerWakes(s, Checked)
    case StartInner => InnerWakes(s, Roomed)
    case EndInner => HeadRuns(s) && s.queue[0].inner.Some? && s.queue[0].inner.value.stage != Fresh
    case GoOn => HeadRuns(s) && s.queue[0].awaits.Some? && HasSettled(s, s.queue[0].awaits.value)
    case Finally(id) => id in s.settling
    case WriteDesired(_) => HeadActs(s) && s.queue[0].kind.Lifecycle?
    case WriteTarget(_) => HeadActs(s) && s.queue[0].kind.Other?
    case Forget => HeadActs(s) && s.queue[0].kind.Other?
  }

  function Stepped(s: State, e: Event): State
    requires CanHappen(s, e)
  {
    match e
    case Ask(door) => Asked(s, door)
    case Enqueue(lifecycle) => s.(queue := s.queue + [Op(if lifecycle then Lifecycle else Other, false, None, None)])
    case Grant => s.(queue := s.queue[0 := s.queue[0].(running := true)])
    case Begin => BodyBegun(s)
    case Room => BodyRoomed(s)
    case StartIt => BodyStarted(s)
    case Release => ReleasedHead(s)
    case AskInside(door) => AskedInside(s, door)
    case BeginInner => InnerBegun(s)
    case RoomInner => InnerRoomed(s)
    case StartInner => InnerStarted(s)
    case EndInner => InnerEnded(s)
    case GoOn => GoneOn(s)
    case Finally(id) => FinallyRun(s, id)
    case WriteDesired(desired) => s.(desired := desired)
    case WriteTarget(target) => s.(target := target)
    case Forget => s.(wakes := None)
  }

  predicate IsBoot(s: State) {
    s == State(s.target, s.desired, [], None, map[], {}, [], 0)
  }

  ghost predicate IsRun(run: seq<Event>, at: seq<State>) {
    && |at| == |run| + 1 && IsBoot(at[0])
    && forall i :: 0 <= i < |run| ==> CanHappen(at[i], run[i]) && at[i + 1] == Stepped(at[i], run[i])
  }

  // ---- traffic starts only what is wanted ------------------------------------------------------

  /** Only the head runs, and a wake past its checks still has the intent it was let through on. */
  predicate OneBody(s: State) {
    && (forall i :: 0 < i < |s.queue| ==> !s.queue[i].running)
    && (forall i :: 0 <= i < |s.queue| && !s.queue[i].running ==>
          s.queue[i].inner.None? && s.queue[i].awaits.None? && (s.queue[i].kind.Waking? ==> s.queue[i].kind.stage.Fresh?))
    && (s.queue != [] && s.queue[0].kind.Waking? ==> s.queue[0].inner.None? && s.queue[0].awaits.None?)
    && (s.queue != [] && s.queue[0].kind.Waking? && !s.queue[0].kind.stage.Fresh? ==> s.target && !Refuses(s.desired, s.queue[0].kind.door))
    && (s.queue != [] && s.queue[0].inner.Some? ==> !s.queue[0].inner.value.door.Traffic?)
  }

  predicate OnlyWanted(starts: seq<Start>) {
    forall i :: 0 <= i < |starts| && starts[i].door.Traffic? ==> starts[i].desired.Running?
  }

  /** Whoever started a container, or is about to, has made room. */
  predicate RoomFirst(s: State) {
    && (forall i :: 0 <= i < |s.starts| ==> s.starts[i].id in s.rooms)
    && (HeadWakes(s, Roomed) ==> s.queue[0].kind.id in s.rooms)
    && (InnerWakes(s, Roomed) ==> s.queue[0].inner.value.id in s.rooms)
  }

  lemma InsideKeepsOneBody(s: State, e: Event)
    requires OneBody(s) && CanHappen(s, e)
    requires e.AskInside? || e.BeginInner? || e.RoomInner? || e.StartInner? || e.EndInner? || e.GoOn?
    ensures OneBody(Stepped(s, e))
  {
  }

  lemma StepKeepsOneBody(s: State, e: Event)
    requires OneBody(s) && CanHappen(s, e)
    ensures OneBody(Stepped(s, e))
  {
    if e.AskInside? || e.BeginInner? || e.RoomInner? || e.StartInner? || e.EndInner? || e.GoOn? {
      InsideKeepsOneBody(s, e);
    }
  }

  lemma StepKeepsStarts(s: State, e: Event)
    requires OneBody(s) && OnlyWanted(s.starts) && RoomFirst(s) && CanHappen(s, e)
    ensures OnlyWanted(Stepped(s, e).starts) && RoomFirst(Stepped(s, e))
  {
  }

  /** In every interleaving of wakes, lifecycle verbs and other operations, bodies on the key never overlap,
      every container started through the traffic door was wanted running at that instant, and none is
      started before room was made for it. */
  lemma {:induction false} TrafficStartsOnlyWanted(run: seq<Event>, at: seq<State>, n: nat)
    requires IsRun(run, at) && n <= |run|
    ensures OneBody(at[n]) && OnlyWanted(at[n].starts) && RoomFirst(at[n])
  {
    if n > 0 {
      TrafficStartsOnlyWanted(run, at, n - 1);
      StepKeepsOneBody(at[n - 1], run[n - 1]);
      StepKeepsStarts(at[n - 1], run[n - 1]);
    }
  }

  // ---- one wake for all callers ----------------------------------------------------------------

  predicate IsWake(s: State, i: int) {
    0 <= i < |s.queue| && s.queue[i].kind.Waking?
  }

  /** A wake queued or running is the one in the map, one that settled stays there until its `finally`, and
      ids are never reused. */
  ghost predicate Tracked(s: State) {
    && (forall i :: IsWake(s, i) ==> s.wakes == Some(s.queue[i].kind.id))
    && (forall i, j :: IsWake(s, i) && IsWake(s, j) ==> i == j)
    && (forall id :: id in s.settling && !s.settling[id] ==> s.wakes == Some(id))
  }

  /** What the head waits for is the wake inside it, or one that was and has settled: never a queued one. */
  ghost predicate AwaitsItsOwn(s: State) {
    s.queue != [] ==>
      && (s.queue[0].inner.Some? ==> s.queue[0].awaits == Some(s.queue[0].inner.value.id))
      && (s.queue[0].awaits.Some? ==>
            s.queue[0].awaits.value < s.next && forall i :: IsWake(s, i) ==> s.queue[i].kind.id != s.queue[0].awaits.value)
  }

  ghost predicate IdsKnown(s: State) {
    && (s.wakes.Some? ==> s.wakes.value < s.next)
    && (forall id :: id in s.settling ==> id < s.next)
    && (forall i :: IsWake(s, i) ==> s.queue[i].kind.id < s.next)
    && (s.queue != [] && s.queue[0].inner.Some? ==>
          var inner := s.queue[0].inner.value;
          inner.id < s.next && inner.id !in s.settling && forall i :: IsWake(s, i) ==> s.queue[i].kind.id != inner.id)
    && (forall i :: IsWake(s, i) ==> s.queue[i].kind.id !in s.settling)
    && AwaitsItsOwn(s)
    && (forall i, j :: IsWake(s, i) && IsWake(s, j) && i != j ==> s.queue[i].kind.id != s.queue[j].kind.id)
  }

  lemma AskKeepsIds(s: State, door: Door)
    requires OneBody(s) && IdsKnown(s)
    ensures IdsKnown(Asked(s, door))
  {
    var t := Asked(s, door);
    assert forall i :: IsWake(t, i) ==> IsWake(s, i) || (i == |s.queue| && t.queue[i].kind.id == s.next);
  }

  lemma ReleaseKeepsIds(s: State)
    requires OneBody(s) && IdsKnown(s) && HeadRuns(s)
    ensures IdsKnown(ReleasedHead(s))
  {
    var t := ReleasedHead(s);
    assert forall i :: IsWake(t, i) ==> IsWake(s, i + 1) && t.queue[i] == s.queue[i + 1];
  }

  lemma InsideKeepsIds(s: State, e: Event)
    requires OneBody(s) && IdsKnown(s) && CanHappen(s, e) && (e.AskInside? || e.BeginInner? || e.RoomInner? || e.StartInner? || e.EndInner? || e.GoOn?)
    ensures IdsKnown(Stepped(s, e))
  {
    var t := Stepped(s, e);
    assert forall i :: IsWake(t, i) ==> IsWake(s, i) && t.queue[i].kind == s.queue[i].kind;
  }

  lemma OthersKeepIds(s: State, e: Event)
    requires OneBody(s) && IdsKnown(s) && CanHappen(s, e)
    requires e.Enqueue? || e.Grant? || e.Room? || e.StartIt? || e.Finally? || e.WriteDesired? || e.WriteTarget? || e.Forget?
    ensures IdsKnown(Stepped(s, e))
  {
    var t := Stepped(s, e);
    assert forall i :: IsWake(t, i) ==> IsWake(s, i) && t.queue[i].kind.id == s.queue[i].kind.id;
  }

  lemma StepKeepsIds(s: State, e: Event)
    requires OneBody(s) && IdsKnown(s) && CanHappen(s, e)
    ensures IdsKnown(Stepped(s, e))
  {
    match e
    case Ask(door) => AskKeepsIds(s, door);
    case Release => ReleaseKeepsIds(s);
    case Begin =>
      ReleaseKeepsIds(s);
      assert forall i :: IsWake(BodyBegun(s), i) && |BodyBegun(s).queue| == |s.queue| ==> BodyBegun(s).queue[i].kind.id == s.queue[i].kind.id;
    case AskInside(_) => InsideKeepsIds(s, e);
    case BeginInner => InsideKeepsIds(s, e);
    case RoomInner => InsideKeepsIds(s, e);
    case StartInner => InsideKeepsIds(s, e);
    case EndInner => InsideKeepsIds(s, e);
    case GoOn => InsideKeepsIds(s, e);
    case Enqueue(_) => OthersKeepIds(s, e);
    case Grant => OthersKeepIds(s, e);
    case Room => OthersKeepIds(s, e);
    case StartIt => OthersKeepIds(s, e);
    case Finally(_) => OthersKeepIds(s, e);
    case WriteDesired(_) => OthersKeepIds(s, e);
    case WriteTarget(_) => OthersKeepIds(s, e);
    case Forget => OthersKeepIds(s, e);
  }

  /** A wake queued from outside has not settled, or its `finally` has not run. */
  ghost predicate Outstanding(s: State) {
    (exists i :: IsWake(s, i)) || (exists id :: id in s.settling && !s.settling[id])
  }

  /** Only a call from outside makes a wake in the queue; every other step leaves the ones there are, or
      takes the head's out. */
  lemma WakesStay(s: State, e: Event, i: int)
    requires OneBody(s) && CanHappen(s, e) && IsWake(Stepped(s, e), i)
    ensures var t := Stepped(s, e);
            var j := i + |s.queue| - |t.queue|;
            if |t.queue| <= |s.queue| then IsWake(s, j) && s.queue[j].kind.id == t.queue[i].kind.id
            else IsWake(s, i) || (e.Ask? && s.wakes.None? && i == |s.queue| && t.queue[i].kind.id == s.next)
  {
  }

  lemma ForgettingLosesTrack(s: State)
    requires Tracked(s)
    ensures Tracked(s.(wakes := None)) <==> !Outstanding(s)
  {
    var t := s.(wakes := None);
    if Outstanding(s) {
      if i :| IsWake(s, i) {
        assert IsWake(t, i);
      } else {
        var id :| id in s.settling && !s.settling[id];
        assert id in t.settling && !t.settling[id];
      }
    } else {
      forall i ensures !IsWake(t, i) {
        assert !IsWake(s, i);
      }
    }
  }

  lemma StepKeepsTracked(s: State, e: Event)
    requires OneBody(s) && IdsKnown(s) && Tracked(s) && CanHappen(s, e)
    ensures Tracked(Stepped(s, e)) <==> !(e.Forget? && Outstanding(s))
  {
    if e.Forget? {
      ForgettingLosesTrack(s);
    } else {
      var t := Stepped(s, e);
      forall i | IsWake(t, i) ensures t.wakes == Some(t.queue[i].kind.id) {
        WakesStay(s, e, i);
      }
      forall i, j | IsWake(t, i) && IsWake(t, j) ensures i == j {
        WakesStay(s, e, i);
        WakesStay(s, e, j);
      }
    }
  }

  lemma {:induction false} IdsAlwaysKnown(run: seq<Event>, at: seq<State>, n: nat)
    requires IsRun(run, at) && n <= |run|
    ensures IdsKnown(at[n])
  {
    if n > 0 {
      IdsAlwaysKnown(run, at, n - 1);
      TrafficStartsOnlyWanted(run, at, n - 1);
      StepKeepsIds(at[n - 1], run[n - 1]);
    }
  }

  /** The map always tracks the one outstanding wake exactly when the key is never forgotten while there is
      one. */
  lemma {:induction false} TrackedUnlessForgotten(run: seq<Event>, at: seq<State>, n: nat)
    requires IsRun(run, at) && n <= |run|
    ensures (forall i :: 0 <= i <= n ==> Tracked(at[i])) <==> (forall i :: 0 <= i < n ==> !(run[i].Forget? && Outstanding(at[i])))
  {
    if n > 0 {
      TrackedUnlessForgotten(run, at, n - 1);
      IdsAlwaysKnown(run, at, n - 1);
      TrafficStartsOnlyWanted(run, at, n - 1);
      if Tracked(at[n - 1]) {
        StepKeepsTracked(at[n - 1], run[n - 1]);
      }
      assert (forall i :: 0 <= i <= n ==> Tracked(at[i])) <==> (forall i :: 0 <= i <= n - 1 ==> Tracked(at[i])) && Tracked(at[n]);
      assert at[n] == Stepped(at[n - 1], run[n - 1]);
    }
  }

  /** While it does, every caller from outside shares the one outstanding wake, and there are never two. */
  lemma CallersShareOneWake(s: State, i: int, door: Door)
    requires Tracked(s) && IsWake(s, i)
    ensures Asked(s, door) == s && s.wakes == Some(s.queue[i].kind.id)
    ensures forall j :: IsWake(s, j) ==> j == i
  {
  }

  ghost predicate Reachable(s: State) {
    exists run, at :: IsRun(run, at) && at[|run|] == s
  }

  lemma Reach(s: State, e: Event)
    requires Reachable(s) && CanHappen(s, e)
    ensures Reachable(Stepped(s, e))
  {
    var run, at :| IsRun(run, at) && at[|run|] == s;
    var t := Stepped(s, e);
    var run', at' := run + [e], at + [t];
    forall i | 0 <= i < |run'| ensures CanHappen(at'[i], run'[i]) && at'[i + 1] == Stepped(at'[i], run'[i]) {
      if i < |run| {
        assert run'[i] == run[i] && at'[i] == at[i] && at'[i + 1] == at[i + 1];
      }
    }
    assert at'[|run'|] == t && IsRun(run', at');
  }

  /** The state in which an operation runs with wake 0 queued behind it. */
  function WakeBehindOp(door: Door): State {
    State(true, Running, [Op(Other, true, None, None), Op(Waking(0, door, Fresh), false, None, None)], Some(0), map[], {}, [], 1)
  }

  lemma ReachWakeBehindOp(door: Door)
    ensures Reachable(WakeBehindOp(door))
  {
    var s0 := State(true, Running, [], None, map[], {}, [], 0);
    var run: seq<Event>, at := [], [s0];
    assert IsRun(run, at) && at[|run|] == s0;
    Reach(s0, Enqueue(false));
    var s1 := s0.(queue := [Op(Other, false, None, None)]);
    assert Stepped(s0, Enqueue(false)) == s1;
    Reach(s1, Grant);
    var s2 := s0.(queue := [Op(Other, true, None, None)]);
    assert Stepped(s1, Grant) == s2;
    Reach(s2, Ask(door));
    assert Stepped(s2, Ask(door)) == WakeBehindOp(door);
  }

  /** Forgetting the key while a wake is queued lets the next caller queue a second one: a run that gets
      there. */
  lemma ForgottenWakeIsDoubled(door: Door) returns (s: State)
    ensures Reachable(s) && IsWake(s, 1) && IsWake(s, 2) && s.queue[1].kind.id != s.queue[2].kind.id
  {
    ReachWakeBehindOp(door);
    var s3 := WakeBehindOp(door);
    Reach(s3, Forget);
    var s4 := s3.(wakes := None);
    assert Stepped(s3, Forget) == s4;
    Reach(s4, Ask(door));
    s := Stepped(s4, Ask(door));
  }

  // ---- nothing is ever stuck -------------------------------------------------------------------

  /** In every state of every run, what an operation on the key waits for is not a queued wake. */
  lemma NeverAwaitsAQueuedWake(run: seq<Event>, at: seq<State>, n: nat, i: int, j: int)
    requires IsRun(run, at) && n <= |run| && 0 <= i < |at[n].queue| && at[n].queue[i].awaits.Some? && IsWake(at[n], j)
    ensures i == 0 && at[n].queue[j].kind.id != at[n].queue[i].awaits.value
  {
    TrafficStartsOnlyWanted(run, at, n);
    IdsAlwaysKnown(run, at, n);
  }

  function StageWork(stage: Stage): nat {
    match stage case Fresh => 3 case Checked => 2 case Roomed => 2 case Started => 1
  }

  function Work(op: Op): nat {
    (if op.running then 0 else 1) + (if op.kind.Waking? then StageWork(op.kind.stage) else 1)
    + (if op.inner.Some? then StageWork(op.inner.value.stage) else 0) + if op.awaits.Some? then 1 else 0
  }

  function TotalWork(queue: seq<Op>): nat {
    if queue == [] then 0 else Work(queue[0]) + TotalWork(queue[1..])
  }

  /** The step that brings the head forward: a wake inside it first, since its caller waits for nothing
      else. */
  function Forward(s: State): Event
    requires s.queue != []
  {
    var op := s.queue[0];
    if !op.running then Grant
    else if op.inner.Some? then (if op.inner.value.stage.Fresh? then BeginInner else EndInner)
    else if op.awaits.Some? then GoOn
    else if op.kind.Waking? && op.kind.stage.Fresh? then Begin
    else Release
  }

  lemma ForwardHelps(s: State)
    requires s.queue != [] && OneBody(s) && AwaitsItsOwn(s)
    ensures CanHappen(s, Forward(s)) && TotalWork(Stepped(s, Forward(s)).queue) < TotalWork(s.queue)
  {
    var t := Stepped(s, Forward(s));
    if s.queue[0].awaits.Some? {
      forall i | 0 <= i < |s.queue| && s.queue[i].kind.Waking? ensures s.queue[i].kind.id != s.queue[0].awaits.value {
        assert IsWake(s, i);
      }
    }
    if |t.queue| == |s.queue| {
      assert t.queue[1..] == s.queue[1..];
    }
  }

  /** Some `n` steps drain the queue. */
  ghost predicate Drains(s: State, n: nat)
    decreases n
  {
    s.queue == [] || (n > 0 && CanHappen(s, Forward(s)) && Drains(Stepped(s, Forward(s)), n - 1))
  }

  lemma {:induction false} DrainsFrom(s: State, n: nat)
    requires OneBody(s) && IdsKnown(s) && n >= TotalWork(s.queue)
    ensures Drains(s, n)
    decreases n
  {
    if s.queue != [] {
      ForwardHelps(s);
      StepKeepsOneBody(s, Forward(s));
      StepKeepsIds(s, Forward(s));
      DrainsFrom(Stepped(s, Forward(s)), n - 1);
    }
  }

  /** From every state of every run, wherever each operation and each wake stands, every operation on the key
      can run to its end: an operation waits for a wake of its own only, so nothing waits for itself. */
  lemma EverythingDrains(run: seq<Event>, at: seq<State>, n: nat)
    requires IsRun(run, at) && n <= |run|
    ensures Drains(at[n], TotalWork(at[n].queue))
  {
    TrafficStartsOnlyWanted(run, at, n);
    IdsAlwaysKnown(run, at, n);
    DrainsFrom(at[n], TotalWork(at[n].queue));
  }

  // ---- joining from inside would be for ever ---------------------------------------------------

  /** The same system, but for an operation that joins the wake in the map as callers from outside do. */
  function JoiningStep(s: State, e: Event): State
    requires CanHappen(s, e)
  {
    if e.AskInside? then JoinedInside(s, e.door) else Stepped(s, e)
  }

  ghost predicate IsJoiningRun(run: seq<Event>, at: seq<State>) {
    && |at| == |run| + 1
    && forall i :: 0 <= i < |run| ==> CanHappen(at[i], run[i]) && at[i + 1] == JoiningStep(at[i], run[i])
  }

  /** The head waits for wake `id`, which is number `i` in the queue behind it. */
  predicate Blocked(s: State, i: int, id: WakeId) {
    && HeadRuns(s) && !s.queue[0].kind.Waking? && s.queue[0].inner.None? && s.queue[0].awaits == Some(id)
    && 0 < i && IsWake(s, i) && s.queue[i].kind.id == id
  }

  lemma BlockedStays(s: State, e: Event, i: int, id: WakeId)
    requires Blocked(s, i, id) && CanHappen(s, e)
    ensures Blocked(JoiningStep(s, e), i, id)
  {
    assert s.queue[i].kind.Waking? && s.queue[i].kind.id == id;
    assert !HasSettled(s, id);
  }

  /** An operation that joined the wake queued behind it never goes on, whatever happens, and neither does
      the wake: a run that gets there, and every run that goes on from it. */
  lemma {:induction false} JoiningBlocksForEver(door: Door, inside: Door, run: seq<Event>, at: seq<State>, n: nat)
    requires !inside.Traffic? && IsJoiningRun(run, at) && n <= |run|
    requires at[0] == JoiningStep(WakeBehindOp(door), AskInside(inside))
    ensures Reachable(WakeBehindOp(door)) && Blocked(at[n], 1, 0)
  {
    ReachWakeBehindOp(door);
    if n > 0 {
      JoiningBlocksForEver(door, inside, run, at, n - 1);
      BlockedStays(at[n - 1], run[n - 1], 1, 0);
    }
  }
}

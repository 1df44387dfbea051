/** What becomes of a wake, over every run of module Wake and from its events alone: which calls make one, what
    it has behind it when it starts the container, that it starts it once and for good, and that the map
    never holds one that is gone. */
module WakeStarts {
  import opened Wake

  /** The container is there, and traffic finds it wanted running. */
  predicate Allowed(s: State, door: Door) {
    s.target && (door == Traffic ==> s.desired == Running)
  }

  // ---- who is heard ----------------------------------------------------------------------------

  /** A call from outside that is allowed leaves a wake in the map: the one that was there, or a new one at the
      back of the queue. One that is not leaves everything as it was. */
  lemma OutsideCallsAreHeard(s: State, door: Door)
    ensures var t := Stepped(s, Ask(door));
            if !Allowed(s, door) || s.wakes.Some? then t == s
            else && t.wakes.Some? && |t.queue| == |s.queue| + 1 && t.queue[..|s.queue|] == s.queue
                 && t.queue[|s.queue|].kind == Waking(t.wakes.value, door, Fresh) && !t.queue[|s.queue|].running
                 && t.starts == s.starts && t.settling == s.settling
  {
  }

  /** A call from inside that is allowed always makes a wake of its own, and the rest of the queue is as it
      was. */
  lemma InsideCallsAreHeard(s: State, door: Door)
    requires CanHappen(s, AskInside(door))
    ensures var t := Stepped(s, AskInside(door));
            if !Allowed(s, door) then t == s
            else && |t.queue| == |s.queue| && t.queue[1..] == s.queue[1..] && t.queue[0].kind == s.queue[0].kind
                 && t.queue[0].inner.Some? && t.queue[0].inner.value == Inline(s.next, door, Fresh) && t.queue[0].awaits == Some(s.next)
                 && t.wakes == (if s.wakes == None then Some(s.next) else s.wakes) && t.starts == s.starts
  {
  }

  /** Under the lock a wake goes on exactly when it is still allowed, and otherwise is over. */
  lemma CheckedAgain(s: State)
    requires CanHappen(s, Begin)
    ensures var t := Stepped(s, Begin);
            var w := s.queue[0].kind;
            if Allowed(s, w.door) then
              |t.queue| == |s.queue| && t.queue[1..] == s.queue[1..] && t.queue[0].kind == Waking(w.id, w.door, Checked)
              && t.settling == s.settling
            else t.queue == s.queue[1..] && w.id in t.settling
  {
  }

  lemma InnerCheckedAgain(s: State)
    requires CanHappen(s, BeginInner)
    ensures var t := Stepped(s, BeginInner);
            var w := s.queue[0].inner.value;
            && |t.queue| == |s.queue| && t.queue[1..] == s.queue[1..]
            && if Allowed(s, w.door) then t.queue[0].inner == Some(Inline(w.id, w.door, Checked))
               else t.queue[0].inner == None && w.id in t.settling
  {
  }

  // ---- what a wake has behind it when it starts the container ----------------------------------

  /** At step `i` the wake is the one that takes its step `outer` from the queue, or `inner` inside the head. */
  predicate Takes(run: seq<Event>, at: seq<State>, i: nat, id: WakeId, door: Door, outer: Event, inner: Event)
    requires i < |run| && i < |at|
  {
    at[i].queue != [] &&
    var op := at[i].queue[0];
    || (run[i] == outer && op.kind.Waking? && op.kind.id == id && op.kind.door == door)
    || (run[i] == inner && op.inner.Some? && op.inner.value.id == id && op.inner.value.door == door)
  }

  /** Before step `n` the wake was found allowed, under the lock. */
  ghost predicate WasChecked(run: seq<Event>, at: seq<State>, n: nat, id: WakeId, door: Door)
    requires n <= |run| && |at| == |run| + 1
  {
    exists i :: 0 <= i < n && Takes(run, at, i, id, door, Begin, BeginInner) && Allowed(at[i], door)
  }

  /** And after that, before step `n`, room was made for it. */
  ghost predicate HadRoom(run: seq<Event>, at: seq<State>, n: nat, id: WakeId, door: Door)
    requires n <= |run| && |at| == |run| + 1
  {
    exists i :: 0 <= i < n && Takes(run, at, i, id, door, Room, RoomInner) && WasChecked(run, at, i, id, door)
  }

  /** What a wake at `stage` has behind it. */
  ghost predicate Earned(run: seq<Event>, at: seq<State>, n: nat, id: WakeId, door: Door, stage: Stage)
    requires n <= |run| && |at| == |run| + 1
  {
    && (stage == Checked ==> WasChecked(run, at, n, id, door))
    && (stage == Roomed || stage == Started ==> HadRoom(run, at, n, id, door))
  }

  ghost predicate HeadEarned(run: seq<Event>, at: seq<State>, n: nat)
    requires n <= |run| && |at| == |run| + 1
  {
    var q := at[n].queue;
    && (forall i :: IsWake(at[n], i) ==> Earned(run, at, n, q[i].kind.id, q[i].kind.door, q[i].kind.stage))
    && (q != [] && q[0].inner.Some? ==> Earned(run, at, n, q[0].inner.value.id, q[0].inner.value.door, q[0].inner.value.stage))
  }

  lemma EarnedStays(run: seq<Event>, at: seq<State>, n: nat, id: WakeId, door: Door, stage: Stage)
    requires n < |run| && |at| == |run| + 1 && Earned(run, at, n, id, door, stage)
    ensures Earned(run, at, n + 1, id, door, stage)
  {
    if stage == Checked {
      var i :| 0 <= i < n && Takes(run, at, i, id, door, Begin, BeginInner) && Allowed(at[i], door);
    } else if stage == Roomed || stage == Started {
      var i :| 0 <= i < n && Takes(run, at, i, id, door, Room, RoomInner) && WasChecked(run, at, i, id, door);
    }
  }

  /** The wake at the head that took this step. */
  lemma HeadEarns(run: seq<Event>, at: seq<State>, n: nat)
    requires IsRun(run, at) && n < |run| && HeadEarned(run, at, n)
    requires run[n] == Begin || run[n] == Room || run[n] == StartIt
    requires |at[n + 1].queue| == |at[n].queue| && at[n].queue != []
    ensures var w := at[n + 1].queue[0].kind; w.Waking? && Earned(run, at, n + 1, w.id, w.door, w.stage)
  {
    var s, e := at[n], run[n];
    var w := at[n + 1].queue[0].kind;
    assert IsWake(s, 0);
    if e == StartIt {
      EarnedStays(run, at, n, w.id, w.door, Roomed);
    } else if e == Room {
      assert Takes(run, at, n, w.id, w.door, Room, RoomInner);
    } else {
      assert Takes(run, at, n, w.id, w.door, Begin, BeginInner);
    }
  }

  /** Every other wake is one there was, as far as it was, or a fresh one. */
  lemma OtherWakes(s: State, e: Event, i: int)
    requires OneBody(s) && CanHappen(s, e) && IsWake(Stepped(s, e), i)
    requires i == 0 && (e == Begin || e == Room || e == StartIt) ==> |Stepped(s, e).queue| < |s.queue|
    ensures var t := Stepped(s, e);
            var j := if |t.queue| < |s.queue| then i + 1 else i;
            t.queue[i].kind.stage == Fresh || (IsWake(s, j) && s.queue[j].kind == t.queue[i].kind)
  {
  }

  lemma EarnedAtStep(run: seq<Event>, at: seq<State>, n: nat, i: int)
    requires IsRun(run, at) && n < |run| && OneBody(at[n]) && HeadEarned(run, at, n) && IsWake(at[n + 1], i)
    ensures var w := at[n + 1].queue[i].kind; Earned(run, at, n + 1, w.id, w.door, w.stage)
  {
    var s, t, e := at[n], at[n + 1], run[n];
    if i == 0 && (e == Begin || e == Room || e == StartIt) && |t.queue| == |s.queue| {
      HeadEarns(run, at, n);
    } else {
      OtherWakes(s, e, i);
      var w := t.queue[i].kind;
      if w.stage != Fresh {
        EarnedStays(run, at, n, w.id, w.door, w.stage);
      }
    }
  }

  lemma EarnedInside(run: seq<Event>, at: seq<State>, n: nat)
    requires IsRun(run, at) && n < |run| && OneBody(at[n]) && HeadEarned(run, at, n)
    requires at[n + 1].queue != [] && at[n + 1].queue[0].inner.Some?
    ensures var w := at[n + 1].queue[0].inner.value; Earned(run, at, n + 1, w.id, w.door, w.stage)
  {
    var s, t, e := at[n], at[n + 1], run[n];
    var w := t.queue[0].inner.value;
    if e == StartInner {
      EarnedStays(run, at, n, w.id, w.door, Roomed);
    } else if e == RoomInner {
      assert Takes(run, at, n, w.id, w.door, Room, RoomInner);
    } else if e == BeginInner {
      assert Takes(run, at, n, w.id, w.door, Begin, BeginInner);
    } else if !e.AskInside? || s.queue[0].inner == t.queue[0].inner {
      assert s.queue[0].inner == t.queue[0].inner;
      EarnedStays(run, at, n, w.id, w.door, w.stage);
    }
  }

  lemma {:induction false} AlwaysEarned(run: seq<Event>, at: seq<State>, n: nat)
    requires IsRun(run, at) && n <= |run|
    ensures HeadEarned(run, at, n)
  {
    if n > 0 {
      AlwaysEarned(run, at, n - 1);
      TrafficStartsOnlyWanted(run, at, n - 1);
      forall i | IsWake(at[n], i)
        ensures var w := at[n].queue[i].kind; Earned(run, at, n, w.id, w.door, w.stage)
      {
        EarnedAtStep(run, at, n - 1, i);
      }
      if at[n].queue != [] && at[n].queue[0].inner.Some? {
        EarnedInside(run, at, n - 1);
      }
    }
  }

  /** A wake starts the container only after it was found allowed under the lock and room was then made for
      it. */
  lemma NoStartUnearned(run: seq<Event>, at: seq<State>, n: nat, id: WakeId, door: Door)
    requires IsRun(run, at) && n < |run| && Takes(run, at, n, id, door, StartIt, StartInner)
    ensures HadRoom(run, at, n, id, door)
  {
    AlwaysEarned(run, at, n);
    assert run[n] == StartIt ==> IsWake(at[n], 0);
  }

  // ---- every start happens, once, and stays ----------------------------------------------------

  /** The starts a run asks for, one a step. */
  ghost function AskedFor(run: seq<Event>, at: seq<State>, n: nat): seq<Start>
    requires IsRun(run, at) && n <= |run|
  {
    if n == 0 then []
    else
      var before, s := AskedFor(run, at, n - 1), at[n - 1];
      assert CanHappen(s, run[n - 1]);
      match run[n - 1]
      case StartIt => before + [Start(s.queue[0].kind.id, s.queue[0].kind.door, s.desired)]
      case StartInner => before + [Start(s.queue[0].inner.value.id, s.queue[0].inner.value.door, s.desired)]
      case _ => before
  }

  /** The containers started are those the wakes went on to start, in their order, whatever became of the
      wakes since. */
  lemma {:induction false} StartsAreThoseAskedFor(run: seq<Event>, at: seq<State>, n: nat)
    requires IsRun(run, at) && n <= |run|
    ensures at[n].starts == AskedFor(run, at, n)
  {
    if n > 0 {
      StartsAreThoseAskedFor(run, at, n - 1);
      assert CanHappen(at[n - 1], run[n - 1]) && at[n] == Stepped(at[n - 1], run[n - 1]);
    }
  }

  predicate HasStarted(starts: seq<Start>, id: WakeId, door: Door) {
    exists k :: 0 <= k < |starts| && starts[k].id == id && starts[k].door == door
  }

  predicate Unstarted(starts: seq<Start>, id: WakeId) {
    forall k :: 0 <= k < |starts| ==> starts[k].id != id
  }

  /** A wake that says it started the container did, and one that does not say so did not. */
  predicate Truthful(s: State, id: WakeId, door: Door, stage: Stage) {
    if stage == Started then HasStarted(s.starts, id, door) else Unstarted(s.starts, id)
  }

  ghost predicate StartedOnce(s: State) {
    && (forall i, j :: 0 <= i < j < |s.starts| ==> s.starts[i].id != s.starts[j].id)
    && (forall i :: 0 <= i < |s.starts| ==> s.starts[i].id < s.next)
    && (forall i :: IsWake(s, i) ==> Truthful(s, s.queue[i].kind.id, s.queue[i].kind.door, s.queue[i].kind.stage))
    && (s.queue != [] && s.queue[0].inner.Some? ==>
          Truthful(s, s.queue[0].inner.value.id, s.queue[0].inner.value.door, s.queue[0].inner.value.stage))
  }

  lemma OneMoreStart(starts: seq<Start>, a: Start, id: WakeId, door: Door)
    ensures HasStarted(starts, id, door) ==> HasStarted(starts + [a], id, door)
    ensures Unstarted(starts, id) && a.id != id ==> Unstarted(starts + [a], id)
    ensures HasStarted(starts + [a], a.id, a.door)
  {
    var all := starts + [a];
    assert all[|starts|] == a;
    if k :| 0 <= k < |starts| && starts[k].id == id && starts[k].door == door {
      assert all[k] == starts[k];
    }
  }

  lemma StartKeepsOnce(s: State, e: Event, a: Start)
    requires OneBody(s) && IdsKnown(s) && StartedOnce(s) && CanHappen(s, e) && (e == StartIt || e == StartInner)
    requires a == if e == StartIt then Start(s.queue[0].kind.id, s.queue[0].kind.door, s.desired)
                  else Start(s.queue[0].inner.value.id, s.queue[0].inner.value.door, s.desired)
    requires Stepped(s, e).starts == s.starts + [a]
    ensures StartedOnce(Stepped(s, e))
  {
    var t := Stepped(s, e);
    assert e == StartIt ==> IsWake(s, 0);
    assert Unstarted(s.starts, a.id);
    forall i | IsWake(t, i) ensures Truthful(t, t.queue[i].kind.id, t.queue[i].kind.door, t.queue[i].kind.stage) {
      assert IsWake(s, i) && s.queue[i].kind.id == t.queue[i].kind.id && s.queue[i].kind.door == t.queue[i].kind.door;
      OneMoreStart(s.starts, a, t.queue[i].kind.id, t.queue[i].kind.door);
    }
    if t.queue[0].inner.Some? {
      OneMoreStart(s.starts, a, t.queue[0].inner.value.id, t.queue[0].inner.value.door);
    }
  }

  /** A wake of `t` was one of `s`, and says no more of itself. */
  predicate SaysTheSame(s: State, t: State, i: int, j: int) {
    && IsWake(t, i) && IsWake(s, j)
    && var a, b := s.queue[j].kind, t.queue[i].kind;
    a.id == b.id && a.door == b.door && (a.stage == Started <==> b.stage == Started)
  }

  /** What runs inside the head is as it was, or has just been asked for. */
  predicate InsideSaysTheSame(s: State, t: State) {
    t.queue != [] && t.queue[0].inner.Some? ==>
      var b := t.queue[0].inner.value;
      || (b.id == s.next && b.stage == Fresh)
      || (&& s.queue != [] && s.queue[0].inner.Some?
          && var a := s.queue[0].inner.value;
          a.id == b.id && a.door == b.door && (a.stage == Started <==> b.stage == Started))
  }

  /** A step that starts nothing, and leaves each wake as it was or makes one of a new id, at place `newAt`. */
  lemma NoStartKeepsOnce(s: State, t: State, shift: nat, newAt: int)
    requires StartedOnce(s) && t.starts == s.starts && s.next <= t.next && InsideSaysTheSame(s, t)
    requires forall i :: IsWake(t, i) && i != newAt ==> SaysTheSame(s, t, i, i + shift)
    requires IsWake(t, newAt) ==> t.queue[newAt].kind.id == s.next && t.queue[newAt].kind.stage == Fresh
    ensures StartedOnce(t)
  {
    assert Unstarted(s.starts, s.next);
    forall i | IsWake(t, i) ensures Truthful(t, t.queue[i].kind.id, t.queue[i].kind.door, t.queue[i].kind.stage) {
      if i != newAt {
        assert SaysTheSame(s, t, i, i + shift);
      }
    }
  }

  lemma HeadGoesOn(s: State, e: Event)
    requires OneBody(s) && StartedOnce(s) && CanHappen(s, e) && (e == Begin || e == Room || e == Release)
    ensures StartedOnce(Stepped(s, e))
  {
    var t := Stepped(s, e);
    NoStartKeepsOnce(s, t, if |t.queue| < |s.queue| then 1 else 0, -1);
  }

  lemma InsideGoesOn(s: State, e: Event)
    requires OneBody(s) && StartedOnce(s) && CanHappen(s, e)
    requires e.AskInside? || e == BeginInner || e == RoomInner || e == EndInner || e == GoOn
    ensures StartedOnce(Stepped(s, e))
  {
    NoStartKeepsOnce(s, Stepped(s, e), 0, -1);
  }

  lemma OthersKeepOnce(s: State, e: Event)
    requires OneBody(s) && StartedOnce(s) && CanHappen(s, e) && e != StartIt && e != StartInner
    ensures StartedOnce(Stepped(s, e))
  {
    if e == Begin || e == Room || e == Release {
      HeadGoesOn(s, e);
    } else if e.AskInside? || e == BeginInner || e == RoomInner || e == EndInner || e == GoOn {
      InsideGoesOn(s, e);
    } else {
      NoStartKeepsOnce(s, Stepped(s, e), 0, |s.queue|);
    }
  }

  /** In every state of every run no wake has started the container twice, and a wake, queued or inside
      another operation, that is past its start has started it, through its own door. */
  lemma {:induction false} StartedExactlyOnce(run: seq<Event>, at: seq<State>, n: nat)
    requires IsRun(run, at) && n <= |run|
    ensures StartedOnce(at[n])
  {
    if n > 0 {
      var s, e := at[n - 1], run[n - 1];
      StartedExactlyOnce(run, at, n - 1);
      TrafficStartsOnlyWanted(run, at, n - 1);
      IdsAlwaysKnown(run, at, n - 1);
      StartsAreThoseAskedFor(run, at, n - 1);
      StartsAreThoseAskedFor(run, at, n);
      if e == StartIt {
        StartKeepsOnce(s, e, Start(s.queue[0].kind.id, s.queue[0].kind.door, s.desired));
      } else if e == StartInner {
        StartKeepsOnce(s, e, Start(s.queue[0].inner.value.id, s.queue[0].inner.value.door, s.desired));
      } else {
        OthersKeepOnce(s, e);
      }
    }
  }

  // ---- the map forgets what is over ------------------------------------------------------------

  /** The wake in the map is queued, or runs inside the head, or has its `finally` still to come. */
  ghost predicate MapIsCurrent(s: State) {
    s.wakes.Some? ==>
      || (exists i :: IsWake(s, i) && s.queue[i].kind.id == s.wakes.value)
      || (s.queue != [] && s.queue[0].inner.Some? && s.queue[0].inner.value.id == s.wakes.value)
      || s.wakes.value in s.settling
  }

  lemma StepKeepsMapCurrent(s: State, e: Event)
    requires OneBody(s) && IdsKnown(s) && MapIsCurrent(s) && CanHappen(s, e)
    ensures MapIsCurrent(Stepped(s, e))
  {
    var t := Stepped(s, e);
    if s.wakes.Some? && t.wakes == s.wakes {
      if i :| IsWake(s, i) && s.queue[i].kind.id == s.wakes.value {
        var j := i - (|s.queue| - if |t.queue| < |s.queue| then |t.queue| else |s.queue|);
        assert j >= 0 ==> IsWake(t, j) && t.queue[j].kind.id == s.wakes.value;
      }
    } else if t.wakes.Some? && e.Ask? {
      assert IsWake(t, |s.queue|);
    }
  }

  /** No caller ever joins a wake that is gone: when its `finally` has run, the map has let go of it. */
  lemma {:induction false} TheMapIsCurrent(run: seq<Event>, at: seq<State>, n: nat)
    requires IsRun(run, at) && n <= |run|
    ensures MapIsCurrent(at[n])
  {
    if n > 0 {
      TheMapIsCurrent(run, at, n - 1);
      TrafficStartsOnlyWanted(run, at, n - 1);
      IdsAlwaysKnown(run, at, n - 1);
      StepKeepsMapCurrent(at[n - 1], run[n - 1]);
    }
  }
}

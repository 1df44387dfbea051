/** The multi-branch renames of src/engine.ts (compute groups and managed databases): one docker rename a
    carrier, compensation when one fails, and records that move only after every container has. */
module RenameSaga {

  datatype Presence = Present | Gone | Unknown

  /** A branch that carries the service, and its container's name before and after. */
  datatype Carrier = Carrier(branch: string, from: string, to: string)

  /** A rename asked of docker, whether it reported success, and whether it happened. */
  datatype Call = Call(from: string, to: string, ok: bool, happened: bool)

  /** How docker takes the next question. A rename may happen and be reported as failed; of a probe
      anything but `Works` is no answer. */
  datatype Reply = Works | Refused | FailedButHappened | NoAnswer

  /** The container names, the replies still to come (all `Works` once they run out), and the renames asked
      for so far. */
  datatype Box = Box(names: set<string>, replies: seq<Reply>, calls: seq<Call>)

  // ---- docker ----------------------------------------------------------------------------------

  function NextReply(d: Box): Reply {
    if d.replies == [] then Works else d.replies[0]
  }

  function Heard(d: Box): Box {
    d.(replies := if d.replies == [] then [] else d.replies[1..])
  }

  predicate Healthy(d: Box) {
    forall r :: r in d.replies ==> r.Works?
  }

  /** What a probe answers is so. */
  function PresenceOf(d: Box, name: string): Presence {
    if !NextReply(d).Works? then Unknown else if name in d.names then Present else Gone
  }

  predicate CanMove(names: set<string>, from: string, to: string) {
    from in names && to !in names
  }

  /** A name that is not there, or one that is taken, is refused. */
  predicate Succeeds(d: Box, from: string, to: string) {
    CanMove(d.names, from, to) && NextReply(d).Works?
  }

  predicate Happens(d: Box, from: string, to: string) {
    CanMove(d.names, from, to) && (NextReply(d).Works? || NextReply(d).FailedButHappened?)
  }

  function AfterRename(d: Box, from: string, to: string): Box {
    Heard(d).(names := if Happens(d, from, to) then d.names - {from} + {to} else d.names,
              calls := d.calls + [Call(from, to, Succeeds(d, from, to), Happens(d, from, to))])
  }

  class Docker {
    var names: set<string>
    var replies: seq<Reply>
    ghost var calls: seq<Call>

    ghost function View(): Box
      reads this
    {
      Box(names, replies, calls)
    }

    constructor (names: set<string>, replies: seq<Reply>)
      ensures View() == Box(names, replies, [])
    {
      this.names, this.replies := names, replies;
      calls := [];
    }

    method ContainerPresence(name: string) returns (answer: Presence)
      modifies this
      ensures answer == PresenceOf(old(View()), name) && View() == Heard(old(View()))
    {
      var reply := Works;
      if replies != [] {
        reply, replies := replies[0], replies[1..];
      }
      answer := if !reply.Works? then Unknown else if name in names then Present else Gone;
    }

    method Rename(from: string, to: string) returns (ok: bool)
      modifies this
      ensures ok == Succeeds(old(View()), from, to) && View() == AfterRename(old(View()), from, to)
    {
      var reply := Works;
      if replies != [] {
        reply, replies := replies[0], replies[1..];
      }
      var can := from in names && to !in names;
      ok := can && reply.Works?;
      var happens := can && (reply.Works? || reply.FailedButHappened?);
      if happens {
        names := names - {from} + {to};
      }
      calls := calls + [Call(from, to, ok, happens)];
    }
  }

  // ---- what a rename is about ------------------------------------------------------------------

  /** No two of the names are the same. */
  predicate DistinctNames(cs: seq<Carrier>) {
    && (forall i, j :: 0 <= i < |cs| && 0 <= j < |cs| ==> cs[i].from != cs[j].to)
    && (forall i, j :: 0 <= i < j < |cs| ==> cs[i].from != cs[j].from && cs[i].to != cs[j].to && cs[i].branch != cs[j].branch)
  }

  predicate Movable(names: set<string>, c: Carrier) {
    c.from in names && c.to !in names
  }

  /** The container names once the carriers numbered `moved` carry their new one. */
  function Relocated(names: set<string>, cs: seq<Carrier>, moved: set<int>): set<string>
    requires forall m :: m in moved ==> 0 <= m < |cs|
  {
    names - (set m | m in moved :: cs[m].from) + (set m | m in moved :: cs[m].to)
  }

  predicate NeverBoth(names: set<string>, cs: seq<Carrier>) {
    forall i :: 0 <= i < |cs| ==> !(cs[i].from in names && cs[i].to in names)
  }

  /** Some carriers moved, each of them one that could, and nothing else did. */
  predicate MovedExactly(now: set<string>, before: set<string>, cs: seq<Carrier>, moved: set<int>) {
    (forall m :: m in moved ==> 0 <= m < |cs| && Movable(before, cs[m])) && now == Relocated(before, cs, moved)
  }

  lemma MovedOne(now: set<string>, before: set<string>, cs: seq<Carrier>, moved: set<int>, i: int)
    requires DistinctNames(cs) && MovedExactly(now, before, cs, moved) && 0 <= i < |cs| && i !in moved
    ensures (cs[i].from in now <==> cs[i].from in before) && (cs[i].to in now <==> cs[i].to in before)
    ensures Movable(now, cs[i]) ==> MovedExactly(now - {cs[i].from} + {cs[i].to}, before, cs, moved + {i})
  {
    assert forall m :: m in moved ==> cs[m].from != cs[i].from && cs[m].to != cs[i].to;
    if Movable(now, cs[i]) {
      assert Relocated(before, cs, moved + {i}) == now - {cs[i].from} + {cs[i].to};
    }
  }

  lemma MovedBackOne(now: set<string>, before: set<string>, cs: seq<Carrier>, moved: set<int>, i: int)
    requires DistinctNames(cs) && MovedExactly(now, before, cs, moved) && i in moved
    ensures cs[i].to in now && cs[i].from !in now
    ensures MovedExactly(now - {cs[i].to} + {cs[i].from}, before, cs, moved - {i})
  {
    assert forall m :: m in moved && m != i ==> cs[m].from != cs[i].from && cs[m].to != cs[i].to;
    assert Relocated(before, cs, moved - {i}) == now - {cs[i].to} + {cs[i].from};
  }

  /** The branch rows with every carrier's container under its new name. */
  function MovedRows(rows: map<string, string>, cs: seq<Carrier>): map<string, string> {
    if cs == [] then rows
    else
      var c, moved := cs[|cs| - 1], MovedRows(rows, cs[..|cs| - 1]);
      if c.branch in moved then moved[c.branch := c.to] else moved
  }

  predicate Ascending(done: seq<int>, n: int) {
    (forall d :: d in done ==> 0 <= d < n) && forall i, j :: 0 <= i < j < |done| ==> done[i] < done[j]
  }

  function Indices(done: seq<int>): set<int> {
    set d | d in done
  }

  // ---- what an attempt does --------------------------------------------------------------------

  datatype Needed = Yes | No | Stop

  function NeededFor(d: Box, c: Carrier): Needed {
    match PresenceOf(d, c.from)
    case Present => Yes
    case Unknown => Stop
    case Gone => if PresenceOf(Heard(d), c.to).Unknown? then Stop else No
  }

  function Asked(d: Box, c: Carrier): Box {
    if PresenceOf(d, c.from).Gone? then Heard(Heard(d)) else Heard(d)
  }

  /** Why the forward pass ended: it came through, a probe could not answer, or a rename reported a failure
      and did or did not happen. */
  datatype Halt = Through | Unanswered | Hit(carrier: int, happened: bool)

  datatype Pass = Pass(done: seq<int>, halt: Halt, docker: Box)

  /** The forward pass from carrier `i` on, with those of `done` already renamed. */
  function Forwarded(d: Box, cs: seq<Carrier>, i: nat, done: seq<int>): Pass
    decreases |cs| - i
  {
    if i >= |cs| then Pass(done, Through, d)
    else
      var e, c := Asked(d, cs[i]), cs[i];
      match NeededFor(d, c)
      case Stop => Pass(done, Unanswered, e)
      case No => Forwarded(e, cs, i + 1, done)
      case Yes =>
        var f := AfterRename(e, c.from, c.to);
        if Succeeds(e, c.from, c.to) then Forwarded(f, cs, i + 1, done + [i]) else Pass(done, Hit(i, Happens(e, c.from, c.to)), f)
  }

  /** The compensation: `stuck` is what reported a failure, `back` what did move back. */
  datatype Undo = Undo(stuck: seq<int>, back: set<int>, docker: Box)

  function Undone(d: Box, cs: seq<Carrier>, done: seq<int>, stuck: seq<int>, back: set<int>): Undo
    requires forall m :: m in done ==> 0 <= m < |cs|
    decreases |done|
  {
    if done == [] then Undo(stuck, back, d)
    else
      var last := done[|done| - 1];
      var init := done[..|done| - 1];
      assert last in done && forall m :: m in init ==> m in done;
      var c := cs[last];
      Undone(AfterRename(d, c.to, c.from), cs, init,
             if Succeeds(d, c.to, c.from) then stuck else stuck + [last],
             if Happens(d, c.to, c.from) then back + {last} else back)
  }

  datatype Outcome = Renamed | Failed(stuck: seq<int>)

  datatype Attempt = Attempt(outcome: Outcome, pass: Pass, back: set<int>, docker: Box)

  function Attempted(d: Box, cs: seq<Carrier>): Attempt
    requires DistinctNames(cs)
  {
    var pass := Forwarded(d, cs, 0, []);
    if pass.halt.Through? then Attempt(Renamed, pass, {}, pass.docker)
    else
      DoneIsAscending(d, cs, 0, []);
      var undo := Undone(pass.docker, cs, pass.done, [], {});
      Attempt(Failed(undo.stuck), pass, undo.back, undo.docker)
  }

  lemma {:induction false} DoneIsAscending(d: Box, cs: seq<Carrier>, i: nat, done: seq<int>)
    requires i <= |cs| && Ascending(done, i)
    ensures Ascending(Forwarded(d, cs, i, done).done, |cs|)
    decreases |cs| - i
  {
    if i < |cs| {
      var e := Asked(d, cs[i]);
      match NeededFor(d, cs[i])
      case Stop => assert Forwarded(d, cs, i, done).done == done;
      case No => DoneIsAscending(e, cs, i + 1, done);
      case Yes =>
        OneMore(done, i);
        if Succeeds(e, cs[i].from, cs[i].to) {
          DoneIsAscending(AfterRename(e, cs[i].from, cs[i].to), cs, i + 1, done + [i]);
        } else {
          assert Forwarded(d, cs, i, done).done == done;
        }
    }
  }

  lemma OneMore(done: seq<int>, i: int)
    requires 0 <= i && Ascending(done, i)
    ensures Ascending(done + [i], i + 1) && Indices(done + [i]) == Indices(done) + {i}
  {
    forall k | 0 <= k < |done| ensures done[k] < i {
      assert done[k] in done;
    }
  }

  // ---- the program -----------------------------------------------------------------------------

  class Engine {
    const docker: Docker
    /** The container each branch row names. */
    var rows: map<string, string>

    constructor (docker: Docker, rows: map<string, string>)
      ensures this.docker == docker && this.rows == rows
    {
      this.docker, this.rows := docker, rows;
    }

    /** `renameNeeded`: a probe that cannot answer stops the rename rather than guessing. */
    method RenameNeeded(c: Carrier) returns (needed: Needed)
      modifies docker
      ensures needed == NeededFor(old(docker.View()), c) && docker.View() == Asked(old(docker.View()), c)
    {
      var before := docker.ContainerPresence(c.from);
      if before.Present? {
        return Yes;
      }
      if before.Unknown? {
        return Stop;
      }
      var after := docker.ContainerPresence(c.to);
      return if after.Unknown? then Stop else No;
    }

    /** The forward pass. */
    method MoveAll(cs: seq<Carrier>) returns (ok: bool, done: seq<int>)
      modifies docker
      ensures var pass := Forwarded(old(docker.View()), cs, 0, []);
              ok == pass.halt.Through? && done == pass.done && docker.View() == pass.docker
    {
      done := [];
      var i := 0;
      ghost var pass := Forwarded(docker.View(), cs, i, done);
      while i < |cs|
        invariant 0 <= i <= |cs| && pass == Forwarded(docker.View(), cs, i, done)
      {
        var needed := RenameNeeded(cs[i]);
        if needed.Stop? {
          return false, done;
        }
        if needed.Yes? {
          var renamed := docker.Rename(cs[i].from, cs[i].to);
          if !renamed {
            return false, done;
          }
          done := done + [i];
        }
        i := i + 1;
      }
      ok := true;
    }

    /** `undoRenames`: newest first. What could not be moved back is `stuck`. */
    method UndoRenames(cs: seq<Carrier>, done: seq<int>) returns (stuck: seq<int>)
      requires forall m :: m in done ==> 0 <= m < |cs|
      modifies docker
      ensures var undo := Undone(old(docker.View()), cs, done, [], {});
              stuck == undo.stuck && docker.View() == undo.docker
    {
      stuck := [];
      var k := |done|;
      ghost var back: set<int> := {};
      assert done[..k] == done;
      while k > 0
        invariant 0 <= k <= |done| && forall m :: m in done[..k] ==> m in done
        invariant Undone(old(docker.View()), cs, done, [], {}) == Undone(docker.View(), cs, done[..k], stuck, back)
      {
        var d := done[k - 1];
        assert d in done && done[..k][..k - 1] == done[..k - 1];
        back := if Happens(docker.View(), cs[d].to, cs[d].from) then back + {d} else back;
        var ok := docker.Rename(cs[d].to, cs[d].from);
        if !ok {
          stuck := stuck + [d];
        }
        k := k - 1;
      }
    }

    /** A rename once its keys and the provision chain are held. */
    method Rename(cs: seq<Carrier>) returns (outcome: Outcome)
      requires DistinctNames(cs)
      modifies this`rows, docker
      ensures var attempt := Attempted(old(docker.View()), cs);
              outcome == attempt.outcome && docker.View() == attempt.docker
      ensures rows == if outcome.Renamed? then MovedRows(old(rows), cs) else old(rows)
    {
      var ok, done := MoveAll(cs);
      if !ok {
        DoneIsAscending(old(docker.View()), cs, 0, []);
        var stuck := UndoRenames(cs, done);
        return Failed(stuck);
      }
      rows := MovedRows(rows, cs);
      return Renamed;
    }
  }

  // ---- what an attempt leaves ------------------------------------------------------------------

  /** The carriers whose container no longer has its old name. */
  function Left(now: set<string>, before: set<string>, cs: seq<Carrier>): set<int> {
    set i | 0 <= i < |cs| && cs[i].from in before && cs[i].from !in now
  }

  lemma LeftIs(now: set<string>, before: set<string>, cs: seq<Carrier>, moved: set<int>)
    requires DistinctNames(cs) && MovedExactly(now, before, cs, moved)
    ensures Left(now, before, cs) == moved
  {
    forall i | 0 <= i < |cs| ensures i in moved <==> cs[i].from in before && cs[i].from !in now {
      if i in moved {
        MovedBackOne(now, before, cs, moved, i);
      } else {
        MovedOne(now, before, cs, moved, i);
      }
    }
  }

  function ReallyMoved(pass: Pass): set<int> {
    Indices(pass.done) + if pass.halt.Hit? && pass.halt.happened then {pass.halt.carrier} else {}
  }

  function Forward(cs: seq<Carrier>, done: seq<int>): (calls: seq<Call>)
    requires forall d :: d in done ==> 0 <= d < |cs|
    ensures |calls| == |done|
  {
    seq(|done|, k requires 0 <= k < |done| => assert done[k] in done; Call(cs[done[k]].from, cs[done[k]].to, true, true))
  }

  function HitCall(cs: seq<Carrier>, halt: Halt): seq<Call> {
    if halt.Hit? && 0 <= halt.carrier < |cs| then [Call(cs[halt.carrier].from, cs[halt.carrier].to, false, halt.happened)] else []
  }

  /** The same renames back, newest first. */
  function Backward(cs: seq<Carrier>, done: seq<int>, stuck: set<int>, back: set<int>): (calls: seq<Call>)
    requires forall d :: d in done ==> 0 <= d < |cs|
    ensures |calls| == |done|
  {
    seq(|done|, k requires 0 <= k < |done| =>
      var d := done[|done| - 1 - k]; assert d in done; Call(cs[d].to, cs[d].from, d !in stuck, d in back))
  }

  /** One rename of the forward pass. */
  lemma OneStep(e: Box, before: set<string>, cs: seq<Carrier>, i: nat, done: seq<int>)
    requires DistinctNames(cs) && i < |cs| && Ascending(done, i) && MovedExactly(e.names, before, cs, Indices(done))
    ensures var f := AfterRename(e, cs[i].from, cs[i].to);
            && MovedExactly(f.names, before, cs, if Happens(e, cs[i].from, cs[i].to) then Indices(done) + {i} else Indices(done))
            && forall j :: 0 <= j < |cs| && cs[j].from !in e.names ==> cs[j].from !in f.names
  {
    assert i !in Indices(done);
    MovedOne(e.names, before, cs, Indices(done), i);
  }

  /** The names after the forward pass: what was done and what the last call did. */
  lemma {:induction false} ForwardedNames(d: Box, before: set<string>, cs: seq<Carrier>, i: nat, done: seq<int>)
    requires DistinctNames(cs) && i <= |cs| && Ascending(done, i) && MovedExactly(d.names, before, cs, Indices(done))
    ensures var pass := Forwarded(d, cs, i, done); MovedExactly(pass.docker.names, before, cs, ReallyMoved(pass))
    decreases |cs| - i
  {
    if i < |cs| {
      var c, e := cs[i], Asked(d, cs[i]);
      match NeededFor(d, c)
      case Stop => assert Indices(done) + {} == Indices(done);
      case No => ForwardedNames(e, before, cs, i + 1, done);
      case Yes =>
        OneStep(e, before, cs, i, done);
        if Succeeds(e, c.from, c.to) {
          OneMore(done, i);
          ForwardedNames(AfterRename(e, c.from, c.to), before, cs, i + 1, done + [i]);
        } else {
          assert Forwarded(d, cs, i, done) == Pass(done, Hit(i, Happens(e, c.from, c.to)), AfterRename(e, c.from, c.to));
          assert Indices(done) + {} == Indices(done);
        }
    } else {
      assert Indices(done) + {} == Indices(done);
    }
  }

  /** Where it ended: at a carrier that is not done, or with no old name left. */
  lemma {:induction false} ForwardedHalts(d: Box, cs: seq<Carrier>, i: nat, done: seq<int>)
    requires DistinctNames(cs) && i <= |cs| && Ascending(done, i) && forall j :: 0 <= j < i ==> cs[j].from !in d.names
    ensures var pass := Forwarded(d, cs, i, done);
            && (pass.halt.Hit? ==> 0 <= pass.halt.carrier < |cs| && pass.halt.carrier !in pass.done)
            && (pass.halt.Through? ==> forall j :: 0 <= j < |cs| ==> cs[j].from !in pass.docker.names)
    decreases |cs| - i
  {
    if i < |cs| {
      var c, e := cs[i], Asked(d, cs[i]);
      match NeededFor(d, c)
      case Stop =>
      case No => ForwardedHalts(e, cs, i + 1, done);
      case Yes =>
        if Succeeds(e, c.from, c.to) {
          OneMore(done, i);
          assert forall j :: 0 <= j <= i ==> cs[j].from != c.to;
          ForwardedHalts(AfterRename(e, c.from, c.to), cs, i + 1, done + [i]);
        } else {
          assert i !in done;
        }
    }
  }

  lemma {:induction false} ForwardedCalls(d: Box, cs: seq<Carrier>, i: nat, done: seq<int>, was: seq<Call>)
    requires i <= |cs| && Ascending(done, i) && d.calls == was + Forward(cs, done)
    ensures var pass := Forwarded(d, cs, i, done);
            Ascending(pass.done, |cs|) && pass.docker.calls == was + Forward(cs, pass.done) + HitCall(cs, pass.halt)
    decreases |cs| - i
  {
    if i < |cs| {
      var c, e := cs[i], Asked(d, cs[i]);
      match NeededFor(d, c)
      case Stop =>
      case No => ForwardedCalls(e, cs, i + 1, done, was);
      case Yes =>
        OneMore(done, i);
        assert Forward(cs, done + [i]) == Forward(cs, done) + [Call(c.from, c.to, true, true)];
        if Succeeds(e, c.from, c.to) {
          ForwardedCalls(AfterRename(e, c.from, c.to), cs, i + 1, done + [i], was);
        }
    }
  }

  lemma LastOf(done: seq<int>, n: int)
    requires Ascending(done, n) && done != []
    ensures var init, last := done[..|done| - 1], done[|done| - 1];
            && Ascending(init, n) && 0 <= last < n && last in done && last !in Indices(init) && Indices(done) == Indices(init) + {last}
  {
    var init, last := done[..|done| - 1], done[|done| - 1];
    assert done == init + [last] && last in done;
    forall d | d in init ensures d in done && d != last {
      var j :| 0 <= j < |init| && init[j] == d;
      assert done[j] == d;
    }
  }

  /** Whatever is stuck or back was to be moved back, and every one that was is one or the other. */
  lemma {:induction false} UndoneAccounts(d: Box, cs: seq<Carrier>, done: seq<int>, stuck: seq<int>, back: set<int>)
    requires Ascending(done, |cs|)
    ensures var undo := Undone(d, cs, done, stuck, back);
            && Indices(stuck) <= Indices(undo.stuck) <= Indices(stuck) + Indices(done) && back <= undo.back <= back + Indices(done)
            && Indices(done) <= Indices(undo.stuck) + undo.back
    decreases |done|
  {
    if done != [] {
      var init, last := done[..|done| - 1], done[|done| - 1];
      LastOf(done, |cs|);
      var c := cs[last];
      var stuck' := if Succeeds(d, c.to, c.from) then stuck else stuck + [last];
      var back' := if Happens(d, c.to, c.from) then back + {last} else back;
      assert Indices(stuck') == if Succeeds(d, c.to, c.from) then Indices(stuck) else Indices(stuck) + {last};
      UndoneAccounts(AfterRename(d, c.to, c.from), cs, init, stuck', back');
    }
  }

  lemma {:induction false} UndoneNames(d: Box, before: set<string>, cs: seq<Carrier>, done: seq<int>, stuck: seq<int>, back: set<int>, left: set<int>)
    requires DistinctNames(cs) && Ascending(done, |cs|) && Indices(done) <= left && MovedExactly(d.names, before, cs, left)
    requires Indices(done) !! back
    ensures MovedExactly(Undone(d, cs, done, stuck, back).docker.names, before, cs, left - (Undone(d, cs, done, stuck, back).back - back))
    decreases |done|
  {
    var undo := Undone(d, cs, done, stuck, back);
    if done == [] {
      assert left - (back - back) == left;
    } else {
      var init, last := done[..|done| - 1], done[|done| - 1];
      LastOf(done, |cs|);
      var c := cs[last];
      MovedBackOne(d.names, before, cs, left, last);
      var stuck' := if Succeeds(d, c.to, c.from) then stuck else stuck + [last];
      var e := AfterRename(d, c.to, c.from);
      if Happens(d, c.to, c.from) {
        UndoneNames(e, before, cs, init, stuck', back + {last}, left - {last});
        UndoneAccounts(e, cs, init, stuck', back + {last});
        assert left - {last} - (undo.back - (back + {last})) == left - (undo.back - back);
      } else {
        UndoneNames(e, before, cs, init, stuck', back, left);
      }
    }
  }

  lemma {:induction false} UndoneCalls(d: Box, cs: seq<Carrier>, done: seq<int>, stuck: seq<int>, back: set<int>)
    requires Ascending(done, |cs|) && Indices(done) !! Indices(stuck) && Indices(done) !! back
    ensures var undo := Undone(d, cs, done, stuck, back);
            undo.docker.calls == d.calls + Backward(cs, done, Indices(undo.stuck), undo.back)
    decreases |done|
  {
    if done != [] {
      var init, last := done[..|done| - 1], done[|done| - 1];
      LastOf(done, |cs|);
      var c := cs[last];
      var e := AfterRename(d, c.to, c.from);
      var stuck' := if Succeeds(d, c.to, c.from) then stuck else stuck + [last];
      var back' := if Happens(d, c.to, c.from) then back + {last} else back;
      assert Indices(stuck') == if Succeeds(d, c.to, c.from) then Indices(stuck) else Indices(stuck) + {last};
      UndoneCalls(e, cs, init, stuck', back');
      UndoneAccounts(e, cs, init, stuck', back');
      var undo := Undone(e, cs, init, stuck', back');
      OneCallBack(cs, done, Indices(undo.stuck), undo.back);
      assert last in Indices(undo.stuck) <==> !Succeeds(d, c.to, c.from);
      assert last in undo.back <==> Happens(d, c.to, c.from);
    }
  }

  lemma OneCallBack(cs: seq<Carrier>, done: seq<int>, stuck: set<int>, back: set<int>)
    requires Ascending(done, |cs|) && done != []
    ensures var last := done[|done| - 1];
            0 <= last < |cs| && Ascending(done[..|done| - 1], |cs|) && Backward(cs, done, stuck, back)
            == [Call(cs[last].to, cs[last].from, last !in stuck, last in back)] + Backward(cs, done[..|done| - 1], stuck, back)
  {
    var init, last := done[..|done| - 1], done[|done| - 1];
    LastOf(done, |cs|);
    var all, rest := Backward(cs, done, stuck, back), Backward(cs, init, stuck, back);
    forall k | 0 < k < |done| ensures all[k] == rest[k - 1] {
      assert init[|init| - k] == done[|done| - 1 - k];
    }
  }

  lemma FirstPass(d: Box, cs: seq<Carrier>)
    requires DistinctNames(cs)
    ensures var pass := Attempted(d, cs).pass;
            && Ascending(pass.done, |cs|) && MovedExactly(pass.docker.names, d.names, cs, ReallyMoved(pass))
            && (pass.halt.Hit? ==> 0 <= pass.halt.carrier < |cs| && pass.halt.carrier !in pass.done)
            && (pass.halt.Through? ==> forall j :: 0 <= j < |cs| ==> cs[j].from !in pass.docker.names)
  {
    assert Relocated(d.names, cs, {}) == d.names;
    assert Indices([]) == {};
    ForwardedNames(d, d.names, cs, 0, []);
    ForwardedHalts(d, cs, 0, []);
    DoneIsAscending(d, cs, 0, []);
  }

  /** What an attempt leaves, exactly. It moves every carrier, or none but the one whose rename was reported
      as failed and happened, and those that did not move back. */
  lemma LeftExactly(d: Box, cs: seq<Carrier>)
    requires DistinctNames(cs)
    ensures var a := Attempted(d, cs);
            var left := Left(a.docker.names, d.names, cs);
            && MovedExactly(a.docker.names, d.names, cs, left)
            && (a.outcome.Renamed? ==> a.docker.names == AllMoved(d.names, cs))
            && (a.outcome.Failed? ==> left == ReallyMoved(a.pass) - a.back)
  {
    var a := Attempted(d, cs);
    FirstPass(d, cs);
    if a.outcome.Renamed? {
      AllMovedIs(a.docker.names, d.names, cs, ReallyMoved(a.pass));
      LeftIs(a.docker.names, d.names, cs, ReallyMoved(a.pass));
    } else {
      UndoneNames(a.pass.docker, d.names, cs, a.pass.done, [], {}, ReallyMoved(a.pass));
      assert a.back - {} == a.back;
      LeftIs(a.docker.names, d.names, cs, ReallyMoved(a.pass) - a.back);
    }
  }

  /** The calls of an attempt: each carrier in order, then the one that failed, then those before it back,
      newest first; a call back is among the stuck ones exactly when it reported a failure. */
  lemma CallsExactly(d: Box, cs: seq<Carrier>)
    requires DistinctNames(cs)
    ensures var a := Attempted(d, cs);
            && Ascending(a.pass.done, |cs|)
            && a.docker.calls == d.calls + Forward(cs, a.pass.done) + HitCall(cs, a.pass.halt)
                               + (if a.outcome.Failed? then Backward(cs, a.pass.done, Indices(a.outcome.stuck), a.back) else [])
  {
    var a := Attempted(d, cs);
    assert d.calls == d.calls + Forward(cs, []);
    ForwardedCalls(d, cs, 0, [], d.calls);
    if a.outcome.Failed? {
      UndoneCalls(a.pass.docker, cs, a.pass.done, [], {});
    }
  }

  /** A rename that reports a failure and happens. */
  predicate Deceives(calls: seq<Call>) {
    exists c :: c in calls && !c.ok && c.happened
  }

  function CallsOf(d: Box, a: Attempt): seq<Call>
    requires |d.calls| <= |a.docker.calls|
  {
    a.docker.calls[|d.calls|..]
  }

  lemma EitherDeceives(a: seq<Call>, b: seq<Call>)
    ensures Deceives(a + b) <==> Deceives(a) || Deceives(b)
  {
    assert forall c :: c in a + b <==> c in a || c in b;
  }

  lemma ForwardIsHonest(cs: seq<Carrier>, done: seq<int>)
    requires forall d :: d in done ==> 0 <= d < |cs|
    ensures !Deceives(Forward(cs, done))
  {
    forall c | c in Forward(cs, done) ensures c.ok {
      var k :| 0 <= k < |done| && Forward(cs, done)[k] == c;
    }
  }

  /** Which calls of a failed attempt can be such. */
  lemma DeceivingCalls(d: Box, cs: seq<Carrier>)
    requires DistinctNames(cs) && Attempted(d, cs).outcome.Failed?
    ensures var a := Attempted(d, cs);
            && |d.calls| <= |a.docker.calls|
            && (Deceives(CallsOf(d, a)) <==> (a.pass.halt.Hit? && a.pass.halt.happened) || !(Indices(a.outcome.stuck) !! a.back))
  {
    var a := Attempted(d, cs);
    CallsExactly(d, cs);
    FirstPass(d, cs);
    UndoneAccounts(a.pass.docker, cs, a.pass.done, [], {});
    CallsAre(d, a, cs);
    var there, hit, back := Forward(cs, a.pass.done), HitCall(cs, a.pass.halt), Backward(cs, a.pass.done, Indices(a.outcome.stuck), a.back);
    EitherDeceives(there + hit, back);
    EitherDeceives(there, hit);
    ForwardIsHonest(cs, a.pass.done);
    HitDeceives(cs, a.pass.halt);
    BackDeceives(cs, a.pass.done, Indices(a.outcome.stuck), a.back);
  }

  lemma CallsAre(d: Box, a: Attempt, cs: seq<Carrier>)
    requires a.outcome.Failed? && Ascending(a.pass.done, |cs|)
    requires a.docker.calls == d.calls + Forward(cs, a.pass.done) + HitCall(cs, a.pass.halt)
                             + Backward(cs, a.pass.done, Indices(a.outcome.stuck), a.back)
    ensures |d.calls| <= |a.docker.calls|
    ensures CallsOf(d, a) == Forward(cs, a.pass.done) + HitCall(cs, a.pass.halt)
                           + Backward(cs, a.pass.done, Indices(a.outcome.stuck), a.back)
  {
  }

  lemma HitDeceives(cs: seq<Carrier>, halt: Halt)
    requires halt.Hit? ==> 0 <= halt.carrier < |cs|
    ensures Deceives(HitCall(cs, halt)) <==> halt.Hit? && halt.happened
  {
    if halt.Hit? {
      assert HitCall(cs, halt)[0] in HitCall(cs, halt);
    }
  }

  lemma BackDeceives(cs: seq<Carrier>, done: seq<int>, stuck: set<int>, back: set<int>)
    requires Ascending(done, |cs|) && stuck <= Indices(done)
    ensures Deceives(Backward(cs, done, stuck, back)) <==> !(stuck !! back)
  {
    var calls := Backward(cs, done, stuck, back);
    if Deceives(calls) {
      var c :| c in calls && !c.ok && c.happened;
      var k :| 0 <= k < |calls| && calls[k] == c;
      assert done[|done| - 1 - k] in stuck && done[|done| - 1 - k] in back;
    }
    if s :| s in stuck && s in back {
      var j :| 0 <= j < |done| && done[j] == s;
      assert calls[|done| - 1 - j] in calls;
    }
  }

  /** What the message of a failed attempt names is what still carries its new name, exactly when no rename
      that reported a failure happened: not the one that stopped the attempt, and none of those back. */
  lemma StuckIsExact(d: Box, cs: seq<Carrier>)
    requires DistinctNames(cs) && Attempted(d, cs).outcome.Failed?
    ensures var a := Attempted(d, cs);
            && |d.calls| <= |a.docker.calls|
            && (Left(a.docker.names, d.names, cs) == Indices(a.outcome.stuck) <==> !Deceives(CallsOf(d, a)))
  {
    var a := Attempted(d, cs);
    var stuck, done := Indices(a.outcome.stuck), Indices(a.pass.done);
    DeceivingCalls(d, cs);
    LeftExactly(d, cs);
    FirstPass(d, cs);
    UndoneAccounts(a.pass.docker, cs, a.pass.done, [], {});
    assert stuck <= done <= stuck + a.back;
    if a.pass.halt.Hit? && a.pass.halt.happened {
      assert a.pass.halt.carrier in ReallyMoved(a.pass) - a.back && a.pass.halt.carrier !in stuck;
    } else {
      assert ReallyMoved(a.pass) == done;
      assert done - a.back == stuck <==> stuck !! a.back;
    }
  }

  /** The message "nothing was renamed" is right exactly when the rename that failed did not happen. */
  lemma NothingWasRenamed(d: Box, cs: seq<Carrier>)
    requires DistinctNames(cs) && Attempted(d, cs).outcome == Failed([])
    ensures var a := Attempted(d, cs); a.docker.names == d.names <==> !(a.pass.halt.Hit? && a.pass.halt.happened)
  {
    var a := Attempted(d, cs);
    LeftExactly(d, cs);
    StuckIsExact(d, cs);
    DeceivingCalls(d, cs);
    assert Indices([]) == {};
    assert Relocated(d.names, cs, {}) == d.names;
    assert a.docker.names == d.names ==> Left(a.docker.names, d.names, cs) == {};
  }

  /** With one carrier: its rename happens and is reported as failed. Nothing is named as stuck, nothing was
      moved back, and the container has its new name while every record says the old one. */
  lemma SilentlyRenamed(c: Carrier)
    requires c.from != c.to
    ensures var a := Attempted(Box({c.from}, [Works, FailedButHappened], []), [c]);
            a.outcome == Failed([]) && a.docker.names == {c.to}
  {
    var d := Box({c.from}, [Works, FailedButHappened], []);
    var e := Heard(d);
    assert Asked(d, c) == e && e.replies == [FailedButHappened];
    assert Forwarded(d, [c], 0, []) == Pass([], Hit(0, true), AfterRename(e, c.from, c.to));
    assert AfterRename(e, c.from, c.to).names == {c.to};
  }

  /** With two: the second is refused, and the first moves back but is reported as failed. It is named as
      stuck under its new name although it has the old one. */
  lemma StuckThoughBack(cs: seq<Carrier>)
    requires DistinctNames(cs) && |cs| == 2
    ensures var a := Attempted(Box({cs[0].from, cs[1].from}, [Works, Works, Works, Refused, FailedButHappened], []), cs);
            a.outcome == Failed([0]) && a.docker.names == {cs[0].from, cs[1].from}
  {
    var d := Box({cs[0].from, cs[1].from}, [Works, Works, Works, Refused, FailedButHappened], []);
    var f := FirstMoves(d, cs);
    var h := SecondRefused(f, cs);
    FirstBack(h, cs);
    assert h.names - {cs[0].to} + {cs[0].from} == d.names;
  }

  lemma FirstMoves(d: Box, cs: seq<Carrier>) returns (f: Box)
    requires DistinctNames(cs) && |cs| == 2 && d.names == {cs[0].from, cs[1].from}
    requires d.replies == [Works, Works, Works, Refused, FailedButHappened]
    ensures Forwarded(d, cs, 0, []) == Forwarded(f, cs, 1, [0])
    ensures f.replies == [Works, Refused, FailedButHappened] && f.names == {cs[0].to, cs[1].from}
  {
    var e := Asked(d, cs[0]);
    assert e.replies == [Works, Works, Refused, FailedButHappened];
    f := AfterRename(e, cs[0].from, cs[0].to);
    assert [] + [0] == [0];
  }

  lemma SecondRefused(f: Box, cs: seq<Carrier>) returns (h: Box)
    requires |cs| == 2 && f.replies == [Works, Refused, FailedButHappened] && cs[1].from in f.names
    ensures Forwarded(f, cs, 1, [0]) == Pass([0], Hit(1, false), h)
    ensures h.replies == [FailedButHappened] && h.names == f.names
  {
    var g := Asked(f, cs[1]);
    assert g.replies == [Refused, FailedButHappened];
    h := AfterRename(g, cs[1].from, cs[1].to);
  }

  lemma FirstBack(h: Box, cs: seq<Carrier>)
    requires |cs| == 2 && h.replies == [FailedButHappened] && cs[0].from !in h.names && cs[0].to in h.names
    ensures Undone(h, cs, [0], [], {}).stuck == [0] && Undone(h, cs, [0], [], {}).docker.names == h.names - {cs[0].to} + {cs[0].from}
  {
    var k := AfterRename(h, cs[0].to, cs[0].from);
    assert [0][..0] == [] && [] + [0] == [0];
    assert Undone(k, cs, [], [0], {} + {0}) == Undo([0], {} + {0}, k);
    assert Undone(h, cs, [0], [], {}) == Undone(k, cs, [], [0], {} + {0});
  }

  predicate BothTaken(names: set<string>, c: Carrier) {
    c.from in names && c.to in names
  }

  /** A docker that answers throughout gets through exactly when no carrier has both its names taken, and is
      stopped by nothing but the rename of one that has. */
  lemma {:induction false} HealthyForward(d: Box, cs: seq<Carrier>, i: nat, done: seq<int>)
    requires DistinctNames(cs) && i <= |cs| && Healthy(d)
    ensures var pass := Forwarded(d, cs, i, done);
            && Healthy(pass.docker) && (pass.halt.Hit? ==> !pass.halt.happened)
            && (pass.halt.Through? <==> NoneBoth(d.names, cs, i))
    decreases |cs| - i
  {
    if i < |cs| {
      var c, e := cs[i], Asked(d, cs[i]);
      assert Healthy(Heard(d)) && Healthy(e);
      if NeededFor(d, c).Yes? {
        var f := AfterRename(e, c.from, c.to);
        assert Healthy(f);
        if BothTaken(d.names, c) {
          assert Forwarded(d, cs, i, done) == Pass(done, Hit(i, false), f);
          assert !NoneBoth(d.names, cs, i);
        } else {
          OthersBoth(d.names, cs, i);
          HealthyForward(f, cs, i + 1, done + [i]);
          assert Forwarded(d, cs, i, done) == Forwarded(f, cs, i + 1, done + [i]);
        }
      } else {
        assert NeededFor(d, c).No? && !BothTaken(d.names, c) && e.names == d.names;
        HealthyForward(e, cs, i + 1, done);
        assert Forwarded(d, cs, i, done) == Forwarded(e, cs, i + 1, done);
      }
    }
  }

  predicate NoneBoth(names: set<string>, cs: seq<Carrier>, i: nat) {
    forall j :: i <= j < |cs| ==> !BothTaken(names, cs[j])
  }

  lemma OthersBoth(names: set<string>, cs: seq<Carrier>, i: nat)
    requires DistinctNames(cs) && i < |cs| && !BothTaken(names, cs[i])
    ensures NoneBoth(names - {cs[i].from} + {cs[i].to}, cs, i + 1) <==> NoneBoth(names, cs, i)
  {
    var after := names - {cs[i].from} + {cs[i].to};
    assert forall j :: i < j < |cs| ==> (BothTaken(after, cs[j]) <==> BothTaken(names, cs[j]));
  }

  /** And such a docker moves everything back. */
  lemma {:induction false} HealthyUndone(d: Box, before: set<string>, cs: seq<Carrier>, done: seq<int>, back: set<int>)
    requires DistinctNames(cs) && Healthy(d) && Ascending(done, |cs|) && MovedExactly(d.names, before, cs, Indices(done))
    ensures Undone(d, cs, done, [], back).stuck == [] && Undone(d, cs, done, [], back).docker.names == before
    decreases |done|
  {
    if done == [] {
      assert Indices(done) == {} && Relocated(before, cs, {}) == before;
    } else {
      var init, last := done[..|done| - 1], done[|done| - 1];
      LastOf(done, |cs|);
      var c := cs[last];
      MovedBackOne(d.names, before, cs, Indices(done), last);
      var e := AfterRename(d, c.to, c.from);
      assert Indices(done) - {last} == Indices(init);
      HealthyUndone(e, before, cs, init, back + {last});
    }
  }

  /** A docker that answers throughout completes the rename exactly when no carrier has both its names taken.
      When one has, as after a deploy under the old name of one that was silently renamed, the attempt leaves
      everything as it was, and so does every later one. */
  lemma HealthyCompletes(d: Box, cs: seq<Carrier>)
    requires DistinctNames(cs) && Healthy(d)
    ensures var a := Attempted(d, cs);
            && (a.outcome.Renamed? <==> NeverBoth(d.names, cs))
            && (a.outcome.Renamed? ==> a.docker.names == AllMoved(d.names, cs))
            && (a.outcome.Failed? ==> a.outcome.stuck == [] && a.docker.names == d.names)
  {
    var a := Attempted(d, cs);
    HealthyForward(d, cs, 0, []);
    assert NoneBoth(d.names, cs, 0) <==> NeverBoth(d.names, cs);
    LeftExactly(d, cs);
    if a.outcome.Failed? {
      FirstPass(d, cs);
      assert ReallyMoved(a.pass) == Indices(a.pass.done);
      HealthyUndone(a.pass.docker, d.names, cs, a.pass.done, {});
    }
  }

  // ---- resumability ----------------------------------------------------------------------------

  /** Where the rename is going: every carrier whose container still has its old name gets the new one. */
  function AllMoved(names: set<string>, cs: seq<Carrier>): set<string> {
    Relocated(names, cs, set i | 0 <= i < |cs| && cs[i].from in names)
  }

  lemma AllMovedIs(now: set<string>, before: set<string>, cs: seq<Carrier>, moved: set<int>)
    requires DistinctNames(cs) && MovedExactly(now, before, cs, moved)
    requires forall i :: 0 <= i < |cs| ==> cs[i].from !in now
    ensures now == AllMoved(before, cs)
  {
    forall i | 0 <= i < |cs| ensures i in moved <==> cs[i].from in before {
      if i !in moved {
        MovedOne(now, before, cs, moved, i);
      }
    }
    assert moved == set i | 0 <= i < |cs| && cs[i].from in before;
  }

  /** An attempt that moved some of the carriers leaves the goal where it was, and the next attempt as able
      to reach it. */
  lemma GoalIsKept(now: set<string>, before: set<string>, cs: seq<Carrier>, moved: set<int>)
    requires DistinctNames(cs) && NeverBoth(before, cs) && MovedExactly(now, before, cs, moved)
    ensures AllMoved(now, cs) == AllMoved(before, cs) && NeverBoth(now, cs)
  {
    var rest := set i | 0 <= i < |cs| && cs[i].from in before && i !in moved;
    forall i | 0 <= i < |cs|
      ensures cs[i].from in now <==> cs[i].from in before && i !in moved
      ensures !(cs[i].from in now && cs[i].to in now)
    {
      if i in moved {
        MovedBackOne(now, before, cs, moved, i);
      } else {
        MovedOne(now, before, cs, moved, i);
      }
    }
    assert rest == set i | 0 <= i < |cs| && cs[i].from in now;
    var all := set i | 0 <= i < |cs| && cs[i].from in before;
    assert all == moved + rest;
    var a, b := Relocated(now, cs, rest), Relocated(before, cs, all);
    forall name ensures name in a <==> name in b {
      RelocatedTwice(before, cs, moved, rest, name);
    }
  }

  lemma RelocatedTwice(before: set<string>, cs: seq<Carrier>, moved: set<int>, rest: set<int>, name: string)
    requires DistinctNames(cs) && (forall m :: m in moved ==> 0 <= m < |cs|) && (forall m :: m in rest ==> 0 <= m < |cs|)
    ensures name in Relocated(Relocated(before, cs, moved), cs, rest) <==> name in Relocated(before, cs, moved + rest)
  {
    if i :| i in moved && cs[i].to == name {
      assert i in moved + rest;
      assert forall m :: m in rest ==> cs[m].from != name;
    }
    if i :| i in moved && cs[i].from == name {
      assert i in moved + rest;
      assert forall m :: m in moved + rest ==> cs[m].to != name;
    }
  }

  /** After any number of attempts that failed anywhere, one that docker answers throughout completes the
      very rename the first one was asked for. */
  lemma {:induction false} Resumable(names: seq<set<string>>, left: seq<set<int>>, cs: seq<Carrier>, n: nat)
    requires DistinctNames(cs) && |names| == |left| + 1 && n <= |left| && NeverBoth(names[0], cs)
    requires forall k :: 0 <= k < |left| ==> MovedExactly(names[k + 1], names[k], cs, left[k])
    ensures AllMoved(names[n], cs) == AllMoved(names[0], cs) && NeverBoth(names[n], cs)
  {
    if n > 0 {
      Resumable(names, left, cs, n - 1);
      GoalIsKept(names[n], names[n - 1], cs, left[n - 1]);
    }
  }

  /** The rows of all carriers move together, each to its own new name, and no other row does. */
  lemma {:induction false} RowsMoveTogether(rows: map<string, string>, cs: seq<Carrier>, b: string)
    requires DistinctNames(cs)
    ensures MovedRows(rows, cs).Keys == rows.Keys
    ensures b in rows && (forall i :: 0 <= i < |cs| ==> cs[i].branch != b) ==> MovedRows(rows, cs)[b] == rows[b]
    ensures forall i :: 0 <= i < |cs| && cs[i].branch in rows ==> MovedRows(rows, cs)[cs[i].branch] == cs[i].to
  {
    if cs != [] {
      var init := cs[..|cs| - 1];
      assert forall i :: 0 <= i < |init| ==> init[i] == cs[i];
      RowsMoveTogether(rows, init, b);
    }
  }

  // ---- nothing is guessed ----------------------------------------------------------------------

  /** Whether a rename is needed is answered from what docker said of the old name, and of the new one when the
      old one is gone; a question it could not answer stops the rename. */
  lemma NothingIsGuessed(d: Box, c: Carrier)
    ensures var first := d.replies == [] || d.replies[0] == Works;
            var second := |d.replies| < 2 || d.replies[1] == Works;
            NeededFor(d, c) == if !first then Stop else if c.from in d.names then Yes else if second then No else Stop
  {
  }

  /** What is left of the replies once some of them have been heard, all of them `Works`. */
  ghost predicate HeardOnlyWorks(before: seq<Reply>, after: seq<Reply>) {
    exists n: nat :: HeardWorks(before, after, n)
  }

  predicate HeardWorks(before: seq<Reply>, after: seq<Reply>, n: nat) {
    n <= |before| && after == before[n..] && forall i :: 0 <= i < n ==> before[i] == Works
  }

  lemma HeardOneMore(before: seq<Reply>, middle: seq<Reply>, after: seq<Reply>)
    requires HeardOnlyWorks(before, middle) && HeardOnlyWorks(middle, after)
    ensures HeardOnlyWorks(before, after)
  {
    var m: nat :| HeardWorks(before, middle, m);
    var n: nat :| HeardWorks(middle, after, n);
    forall i | 0 <= i < m + n ensures before[i] == Works {
      assert i >= m ==> middle[i - m] == before[i];
    }
    assert after == before[m + n..];
    assert HeardWorks(before, after, m + n);
  }

  lemma HeardNext(d: Box)
    requires NextReply(d) == Works
    ensures HeardOnlyWorks(d.replies, Heard(d).replies)
  {
    assert HeardWorks(d.replies, Heard(d).replies, if d.replies == [] then 0 else 1);
  }

  lemma AskedHeard(d: Box, c: Carrier)
    requires NeededFor(d, c) != Stop
    ensures HeardOnlyWorks(d.replies, Asked(d, c).replies)
  {
    HeardNext(d);
    if PresenceOf(d, c.from).Gone? {
      HeardNext(Heard(d));
      HeardOneMore(d.replies, Heard(d).replies, Heard(Heard(d)).replies);
    }
  }

  lemma {:induction false} ForwardedHeard(d: Box, cs: seq<Carrier>, i: nat, done: seq<int>)
    requires i <= |cs| && Forwarded(d, cs, i, done).halt.Through?
    ensures HeardOnlyWorks(d.replies, Forwarded(d, cs, i, done).docker.replies)
    decreases |cs| - i
  {
    if i == |cs| {
      assert HeardWorks(d.replies, d.replies, 0);
    } else {
      var c, e := cs[i], Asked(d, cs[i]);
      AskedHeard(d, c);
      if NeededFor(d, c).No? {
        ForwardedHeard(e, cs, i + 1, done);
        HeardOneMore(d.replies, e.replies, Forwarded(d, cs, i, done).docker.replies);
      } else {
        var f := AfterRename(e, c.from, c.to);
        HeardNext(e);
        HeardOneMore(d.replies, e.replies, f.replies);
        ForwardedHeard(f, cs, i + 1, done + [i]);
        HeardOneMore(d.replies, f.replies, Forwarded(d, cs, i, done).docker.replies);
      }
    }
  }

  /** An attempt comes through only if docker answered every question it was asked and did every rename it was
      asked for. */
  lemma OnlyOnAnswers(d: Box, cs: seq<Carrier>)
    requires DistinctNames(cs) && Attempted(d, cs).outcome.Renamed?
    ensures HeardOnlyWorks(d.replies, Attempted(d, cs).docker.replies)
  {
    ForwardedHeard(d, cs, 0, []);
  }
}

/** The dated container snapshot of src/scheduler.ts: full listings folded in as of when they were
    issued, single facts stamped as of when they were learned. */
module Snapshot {

  datatype State = Running | Paused | Exited | Created | Restarting | Dead

  datatype Listed = Listed(state: State, id: string)

  datatype Fact = Fact(state: State, id: string, at: int)

  type Listing = map<string, Listed>

  type Cache = map<string, Fact>

  // ---- what the operations do ------------------------------------------------------------------

  predicate Newer(cache: Cache, name: string, at: int) {
    name in cache && cache[name].at > at
  }

  function Absorbed(cache: Cache, listing: Listing, at: int): Cache {
    map name | name in cache.Keys + listing.Keys && (name in listing || Newer(cache, name, at)) ::
      if Newer(cache, name, at) then cache[name] else Fact(listing[name].state, listing[name].id, at)
  }

  function Overlaid(cache: Cache, listing: Listing, at: int): Cache {
    map name | name in cache.Keys + listing.Keys ::
      if name in listing && !Newer(cache, name, at) then Fact(listing[name].state, listing[name].id, at) else cache[name]
  }

  function Part(listing: Listing, names: set<string>): Listing {
    map name | name in listing && name in names :: listing[name]
  }

  lemma OverlayOne(cache: Cache, listing: Listing, seen: set<string>, name: string, at: int)
    requires name in listing && name !in seen
    ensures var before := Overlaid(cache, Part(listing, seen), at);
            && (name in before <==> name in cache) && (name in cache ==> before[name] == cache[name])
            && Overlaid(cache, Part(listing, seen + {name}), at)
               == if Newer(cache, name, at) then before else before[name := Fact(listing[name].state, listing[name].id, at)]
  {
    assert Part(listing, seen + {name}) == Part(listing, seen)[name := listing[name]];
  }

  function Stamped(cache: Cache, name: string, state: State, now: int): Cache {
    cache[name := Fact(state, if name in cache then cache[name].id else "", now)]
  }

  function MaxStateAge(sweepSec: nat): int {
    if 2 * sweepSec * 1000 >= 30000 then 2 * sweepSec * 1000 else 30000
  }

  predicate ObservedRunning(cache: Cache, name: string, now: int, sweepSec: nat) {
    name in cache && cache[name].state.Running? && now - cache[name].at < MaxStateAge(sweepSec)
  }

  datatype Option<T> = None | Some(value: T)

  datatype SleepAnswer = Asleep | Refused | Threw

  // ---- the program -----------------------------------------------------------------------------

  class StateSnapshot {
    var stateCache: Cache

    constructor ()
      ensures stateCache == map[]
    {
      stateCache := map[];
    }

    /** `absorb`: a fold, not a replacement. `at` is when the read was issued. */
    method Absorb(containers: Listing, at: int)
      modifies this
      ensures stateCache == Absorbed(old(stateCache), containers, at)
    {
      var next := Overlay(stateCache, containers, at);
      stateCache := ForgetGone(next, containers, at);
    }

    /** The first loop: what is listed, unless something newer is known. */
    static method Overlay(cache: Cache, containers: Listing, at: int) returns (next: Cache)
      ensures next == Overlaid(cache, containers, at)
    {
      next := cache;
      var todo := containers.Keys;
      while todo != {}
        invariant todo <= containers.Keys
        invariant next == Overlaid(cache, Part(containers, containers.Keys - todo), at)
        decreases todo
      {
        var name :| name in todo;
        OverlayOne(cache, containers, containers.Keys - todo, name, at);
        assert containers.Keys - todo + {name} == containers.Keys - (todo - {name});
        todo := todo - {name};
        if name !in next || next[name].at <= at {
          next := next[name := Fact(containers[name].state, containers[name].id, at)];
        }
      }
      assert Part(containers, containers.Keys) == containers;
    }

    /** The second loop: what is not listed goes, unless something newer is known. */
    static method ForgetGone(cache: Cache, containers: Listing, at: int) returns (next: Cache)
      ensures next == map name | name in cache && (name in containers || cache[name].at > at) :: cache[name]
    {
      next := cache;
      var todo := next.Keys;
      while todo != {}
        invariant todo <= next.Keys
        invariant next == map name | name in cache && (name in todo || name in containers || cache[name].at > at) :: cache[name]
        decreases todo
      {
        var name :| name in todo;
        todo := todo - {name};
        if name !in containers && next[name].at <= at {
          next := next - {name};
        }
      }
    }

    /** `setCached`, for a name that still has a target. */
    method SetCached(name: string, state: State, now: int)
      modifies this
      ensures stateCache == Stamped(old(stateCache), name, state, now)
    {
      stateCache := stateCache[name := Fact(state, if name in stateCache then stateCache[name].id else "", now)];
    }

    /** What a failed stop does to the entry of its container. */
    method Drop(name: string)
      modifies this
      ensures stateCache == old(stateCache) - {name}
    {
      stateCache := stateCache - {name};
    }

    /** `sleep`, under its key: one full read (None when docker did not answer), then the stop of a
        container that is running. A stop that failed may still land, so nothing is believed of it. */
    method Sleep(name: string, read: Option<Listing>, issued: int, stops: bool, now: int) returns (answer: SleepAnswer)
      modifies this
      ensures read.None? ==> answer == Threw && stateCache == old(stateCache)
      ensures read.Some? ==>
                var seen := Absorbed(old(stateCache), read.value, issued);
                if name in seen && seen[name].state.Running? then
                  if stops then answer == Asleep && stateCache == Stamped(seen, name, Exited, now)
                  else answer == Threw && stateCache == seen - {name}
                else if name in seen && seen[name].state.Created? then answer == Asleep && stateCache == Stamped(seen, name, Exited, now)
                else answer == Refused && stateCache == seen
      ensures read.Some? ==> forall at, sweepSec :: !ObservedRunning(stateCache, name, at, sweepSec)
    {
      if read.None? {
        return Threw;
      }
      Absorb(read.value, issued);
      if name !in stateCache {
        return Refused;
      }
      if stateCache[name].state.Created? {
        SetCached(name, Exited, now);
        return Asleep;
      }
      if !stateCache[name].state.Running? {
        return Refused;
      }
      if !stops {
        Drop(name);
        return Threw;
      }
      SetCached(name, Exited, now);
      return Asleep;
    }
  }

  // ---- one fold --------------------------------------------------------------------------------

  /** After a listing issued at `at` is folded in: nothing is dated before it, what is dated by it is
      exactly what it lists and nothing newer spoke for, what is newer is untouched, and no entry that
      survives is dated back. */
  lemma FoldIsDated(cache: Cache, listing: Listing, at: int)
    ensures var next := Absorbed(cache, listing, at);
            && (forall name :: name in next ==> next[name].at >= at)
            && (forall name :: name in next && next[name].at == at ==>
                  name in listing && Listed(next[name].state, next[name].id) == listing[name])
            && (forall name :: Newer(cache, name, at) ==> name in next && next[name] == cache[name])
            && (forall name :: name in listing ==> name in next)
            && (forall name :: name in cache && name in next ==> next[name].at >= cache[name].at)
            && (forall name :: name in cache && name !in next ==> name !in listing && cache[name].at <= at)
  {
  }

  /** Two reads that answer in the order they were issued leave just what the later one alone leaves. */
  lemma LaterReadWins(cache: Cache, first: Listing, t1: int, second: Listing, t2: int)
    requires t1 <= t2
    ensures Absorbed(Absorbed(cache, first, t1), second, t2) == Absorbed(cache, second, t2)
  {
    var a, b := Absorbed(Absorbed(cache, first, t1), second, t2), Absorbed(cache, second, t2);
    forall name
      ensures name in a <==> name in b
      ensures name in a ==> a[name] == b[name]
    {
      assert Newer(Absorbed(cache, first, t1), name, t2) <==> Newer(cache, name, t2);
    }
  }

  /** A slow read that answers after one issued later changes nothing that one knows: it only brings
      back, dated as old as it is, names the later one found gone. So the order of the answers is
      immaterial exactly when it lists no such name. */
  lemma LateAnswer(cache: Cache, stale: Listing, t1: int, recent: Listing, t2: int)
    requires t1 < t2
    ensures var known := Absorbed(cache, recent, t2);
            var late := Absorbed(known, stale, t1);
            && late.Keys == known.Keys + stale.Keys
            && (forall name :: name in known ==> late[name] == known[name])
            && (forall name :: name in late && name !in known ==> late[name].at == t1)
            && (late == Absorbed(Absorbed(cache, stale, t1), recent, t2) <==> stale.Keys <= known.Keys)
  {
    LaterReadWins(cache, stale, t1, recent, t2);
    FoldIsDated(cache, recent, t2);
    var known := Absorbed(cache, recent, t2);
    var late := Absorbed(known, stale, t1);
    assert forall name :: name in known ==> Newer(known, name, t1);
    if stale.Keys <= known.Keys {
      assert late.Keys == known.Keys;
    }
  }

  // ---- whole runs ------------------------------------------------------------------------------

  /** What happens at one instant: a read is issued, a read answers, a caller records what it saw
      happen, or a failed stop drops an entry. */
  datatype Event = Issue | Answer(issued: int, listing: Listing, seen: int) | Record(name: string, state: State) | Drop(name: string)

  datatype Timed = Timed(at: int, event: Event)

  /** The state docker really has each container in, instant by instant; absent is None. */
  type World = (int, string) -> Option<State>

  predicate Describes(world: World, at: int, listing: Listing) {
    forall name :: name in listing ==> world(at, name) == Some(listing[name].state)
  }

  /** A read describes docker as it was at some instant between its issue and its answer, and a caller
      records `running` only of a container that then runs (a clone never started is recorded `exited`
      while docker calls it `created`). Instants never go back. */
  predicate Honest(world: World, run: seq<Timed>) {
    && (forall i, j :: 0 <= i < j < |run| ==> run[i].at <= run[j].at)
    && forall i :: 0 <= i < |run| ==> HonestEvent(world, run[i])
  }

  predicate HonestEvent(world: World, e: Timed) {
    match e.event
    case Issue => true
    case Answer(issued, listing, seen) => issued <= seen <= e.at && Describes(world, seen, listing)
    case Record(name, state) => state.Running? ==> world(e.at, name) == Some(Running)
    case Drop(_) => true
  }

  function After(run: seq<Timed>): Cache {
    if run == [] then map[]
    else
      var cache, e := After(run[..|run| - 1]), run[|run| - 1];
      match e.event
      case Issue => cache
      case Answer(issued, listing, _) => Absorbed(cache, listing, issued)
      case Record(name, state) => Stamped(cache, name, state, e.at)
      case Drop(name) => cache - {name}
  }

  /** The container was running at an instant in the span. */
  ghost predicate RanWithin(world: World, name: string, from: int, to: int) {
    exists s :: from <= s <= to && world(s, name) == Some(Running)
  }

  /** Every `running` in the snapshot was true at an instant no earlier than its date. */
  ghost predicate Backed(world: World, cache: Cache, now: int) {
    forall name :: name in cache && cache[name].state.Running? ==> RanWithin(world, name, cache[name].at, now)
  }

  lemma {:induction false} RunIsBacked(world: World, run: seq<Timed>, now: int)
    requires Honest(world, run) && (run != [] ==> run[|run| - 1].at <= now)
    ensures Backed(world, After(run), now)
  {
    if run != [] {
      var before, e := After(run[..|run| - 1]), run[|run| - 1];
      RunIsBacked(world, run[..|run| - 1], e.at);
      assert HonestEvent(world, e);
      forall name | name in After(run) && After(run)[name].state.Running?
        ensures RanWithin(world, name, After(run)[name].at, now)
      {
        if name in before && After(run)[name] == before[name] {
          assert RanWithin(world, name, before[name].at, e.at);
        } else if e.event.Answer? {
          assert world(e.event.seen, name) == Some(Running);
        } else {
          assert world(e.at, name) == Some(Running);
        }
      }
    }
  }

  /** What the idle sweep and the eviction pass act on: over every interleaving of slow reads, single
      facts and failed reads, a container observed running really was running at an instant less than
      the permitted age ago. */
  lemma ObservedRunningIsRecent(world: World, run: seq<Timed>, name: string, now: int, sweepSec: nat)
    requires Honest(world, run) && (run != [] ==> run[|run| - 1].at <= now)
    requires ObservedRunning(After(run), name, now, sweepSec)
    ensures RanWithin(world, name, now - MaxStateAge(sweepSec) + 1, now)
  {
    RunIsBacked(world, run, now);
    assert RanWithin(world, name, After(run)[name].at, now);
  }

  /** Why the date is the issue and not the answer: dated by its answer, one slow read is enough to have
      a container observed running a minute after it stopped. */
  lemma DatingByAnswerWouldMislead()
    ensures exists world: World, listing: Listing, issued: int, answered: int ::
              && issued <= answered && Describes(world, issued, listing)
              && ObservedRunning(Absorbed(map[], listing, answered), "db", answered, 15)
              && !ObservedRunning(Absorbed(map[], listing, issued), "db", answered, 15)
              && forall s :: answered - MaxStateAge(15) < s <= answered ==> world(s, "db") != Some(Running)
  {
    var world: World := (at: int, name: string) => if at <= 0 then Some(Running) else Some(Exited);
    var listing: Listing := map["db" := Listed(Running, "")];
    assert Describes(world, 0, listing);
    assert ObservedRunning(Absorbed(map[], listing, 60000), "db", 60000, 15);
    assert !ObservedRunning(Absorbed(map[], listing, 0), "db", 60000, 15);
  }
}

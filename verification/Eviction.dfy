/** The eviction pass of src/scheduler.ts: sleep the least recently active service, one at a time, until
    free memory is back above the floor.

    Everything a turn reads may have changed since the turn before (every stop awaits a grace), so the
    pass runs over an environment that hands each turn its own view. */
module Eviction {

  type Key = string

  datatype Option<T> = None | Some(value: T)

  datatype Kind = Compute | Postgres | Managed

  datatype Desired = WantRunning | WantStopped | WantSuspended

  datatype Target = Target(key: Key, kind: Kind, container: string, alwaysOn: bool, desired: Desired)

  datatype Observation = Observation(running: bool, at: int)

  datatype LedgerEntry = LedgerEntry(lastActiveAt: int, wokeAt: Option<int>, lastRssBytes: Option<nat>)

  datatype Memory = Memory(available: int, total: int)

  /** How the stop of the chosen service went; a stop that worked is credited what the ledger then knows. */
  datatype Sleep = Slept(rss: Option<nat>) | NotSlept | Threw

  /** What one turn sees, all of it read in one synchronous stretch, and how its stop ends. */
  datatype Turn = Turn(now: int, memory: Option<Memory>, targets: seq<Target>, cache: map<string, Observation>,
                       busy: set<Key>, holds: map<Key, nat>, ledger: map<Key, LedgerEntry>, sleep: Sleep)

  datatype Config = Config(ramFloorPct: real, maxStateAgeMs: int, touchDebounceMs: int, wakeProtectSec: int)

  const EVICTION_CEILING := 10000
  const MIB := 1024 * 1024

  function DefaultRss(kind: Kind): nat {
    match kind
    case Compute => 256 * MIB
    case Postgres => 128 * MIB
    case Managed => 256 * MIB
  }

  /** The ledger entry, made on first sight. */
  function Rec(v: Turn, key: Key): LedgerEntry {
    if key in v.ledger then v.ledger[key] else LedgerEntry(v.now, None, None)
  }

  function RssOf(v: Turn, key: Key): nat {
    var rss := Rec(v, key).lastRssBytes;
    if rss.Some? then rss.value else 0
  }

  predicate ObservedRunning(cfg: Config, v: Turn, container: string) {
    container in v.cache && v.cache[container].running && v.now - v.cache[container].at < cfg.maxStateAgeMs
  }

  /** The hard guards, none of them a preference. */
  predicate IsVictim(cfg: Config, v: Turn, t: Target, exclude: set<Key>, tried: set<Key>) {
    if t.key in exclude || t.key in tried then false
    else if !ObservedRunning(cfg, v, t.container) then false
    else if t.alwaysOn || t.desired != WantRunning then false
    else if t.key in v.busy then false
    else if t.key in v.holds && v.holds[t.key] > 0 then false
    else
      var r := Rec(v, t.key);
      if v.now - r.lastActiveAt < 2 * cfg.touchDebounceMs then false
      else if r.wokeAt.Some? && v.now - r.wokeAt.value < cfg.wakeProtectSec * 1000 then false
      else true
  }

  function Pool(cfg: Config, v: Turn, ts: seq<Target>, exclude: set<Key>, tried: set<Key>): (pool: seq<Target>)
    ensures forall t :: t in pool <==> t in ts && IsVictim(cfg, v, t, exclude, tried)
  {
    if ts == [] then []
    else
      var rest := Pool(cfg, v, ts[1..], exclude, tried);
      assert ts == [ts[0]] + ts[1..];
      if IsVictim(cfg, v, ts[0], exclude, tried) then [ts[0]] + rest else rest
  }

  /** Strictly earlier in the order of eviction: longer idle, or as long idle and bigger. */
  predicate Before(v: Turn, a: Target, b: Target) {
    var x, y := Rec(v, a.key).lastActiveAt, Rec(v, b.key).lastActiveAt;
    x < y || (x == y && RssOf(v, a.key) > RssOf(v, b.key))
  }

  function Insert(v: Turn, t: Target, ts: seq<Target>): (r: seq<Target>)
    ensures |r| == |ts| + 1
  {
    if ts == [] || !Before(v, ts[0], t) then [t] + ts else [ts[0]] + Insert(v, t, ts[1..])
  }

  /** The library's sort, which is stable: of two that tie, the one listed first stays first. */
  function InOrder(v: Turn, ts: seq<Target>): (r: seq<Target>)
    ensures |r| == |ts|
  {
    if ts == [] then [] else Insert(v, ts[0], InOrder(v, ts[1..]))
  }

  // ---- what the pass does ----------------------------------------------------------------------

  datatype Attempt = Attempt(target: Target, sleep: Sleep)

  datatype Exit = Off | Unreadable | FloorMet | NoVictim | Failed | GaveUp

  datatype Pass = Pass(attempts: seq<Attempt>, exit: Exit)

  /** What stays fixed over one pass: the baseline and the floor are read once, before the loop. */
  datatype Job = Job(cfg: Config, first: Memory, floor: real, need: nat, exclude: set<Key>)

  function JobFor(cfg: Config, first: Memory, need: nat, exclude: set<Key>): Job {
    Job(cfg, first, first.total as real * (cfg.ramFloorPct / 100.0), need, exclude)
  }

  /** The larger of what the box reports and what this pass knows it freed. */
  function Available(mem: Memory, first: Memory, freed: nat): int {
    var own := first.available + freed;
    if mem.available >= own then mem.available else own
  }

  predicate Met(job: Job, mem: Memory, freed: nat) {
    (Available(mem, job.first, freed) - job.need) as real >= job.floor
  }

  function Credit(a: Attempt): nat {
    match a.sleep
    case Slept(rss) => if rss.Some? then rss.value else DefaultRss(a.target.kind)
    case NotSlept => 0
    case Threw => 0
  }

  datatype Decision = Leave(exit: Exit) | Try(target: Target)

  function Decide(job: Job, v: Turn, tried: set<Key>, freed: nat): Decision {
    if v.memory.None? then Leave(Unreadable)
    else if Met(job, v.memory.value, freed) then Leave(FloorMet)
    else
      var pool := InOrder(v, Pool(job.cfg, v, v.targets, job.exclude, tried));
      if pool == [] then Leave(NoVictim) else Try(pool[0])
  }

  /** The turns from number `i` on. */
  function Turns(job: Job, env: nat -> Turn,
                 i: nat, tried: set<Key>, freed: nat): Pass
    requires i <= EVICTION_CEILING
    decreases EVICTION_CEILING - i, job
  {
    if i == EVICTION_CEILING then Pass([], GaveUp)
    else
      match Decide(job, env(i), tried, freed)
      case Leave(exit) => Pass([], exit)
      case Try(t) =>
        var a := Attempt(t, env(i).sleep);
        if a.sleep.Threw? then Pass([a], Failed)
        else
          var rest := Turns(job, env, i + 1, tried + {t.key}, freed + Credit(a));
          Pass([a] + rest.attempts, rest.exit)
  }

  function EvictionPass(cfg: Config, env: nat -> Turn, first: Option<Memory>, need: nat, exclude: set<Key>): Pass {
    if cfg.ramFloorPct <= 0.0 then Pass([], Off)
    else if first.None? then Pass([], Unreadable)
    else Turns(JobFor(cfg, first.value, need, exclude), env, 0, {}, 0)
  }

  /** `sofar` is what the pass `whole` has done by turn `i`, where `tried` and `freed` stand. */
  ghost predicate Reached(whole: Pass, job: Job, env: nat -> Turn, i: nat, tried: set<Key>, freed: nat, sofar: seq<Attempt>) {
    i <= EVICTION_CEILING && whole == After(sofar, Turns(job, env, i, tried, freed))
  }

  function After(sofar: seq<Attempt>, rest: Pass): Pass {
    Pass(sofar + rest.attempts, rest.exit)
  }

  /** Of the services that meet every guard, target number `i` is idle longest, biggest among those, and
      listed first among those. */
  predicate IsFirst(job: Job, v: Turn, tried: set<Key>, i: int) {
    && 0 <= i < |v.targets| && IsVictim(job.cfg, v, v.targets[i], job.exclude, tried)
    && (forall j :: 0 <= j < |v.targets| && IsVictim(job.cfg, v, v.targets[j], job.exclude, tried) ==> !Before(v, v.targets[j], v.targets[i]))
    && (forall j :: 0 <= j < i && IsVictim(job.cfg, v, v.targets[j], job.exclude, tried) ==> Before(v, v.targets[i], v.targets[j]))
  }

  /** What a turn owes its caller: to leave for the reason there is, and otherwise to name the one service
      that comes first. */
  ghost predicate Rightly(job: Job, v: Turn, tried: set<Key>, freed: nat, d: Decision) {
    match d
    case Try(t) => v.memory.Some? && !Met(job, v.memory.value, freed) && exists i :: IsFirst(job, v, tried, i) && v.targets[i] == t
    case Leave(exit) =>
      match exit
      case Unreadable => v.memory.None?
      case FloorMet => v.memory.Some? && Met(job, v.memory.value, freed)
      case NoVictim => && v.memory.Some? && !Met(job, v.memory.value, freed)
                       && forall t :: t in v.targets ==> !IsVictim(job.cfg, v, t, job.exclude, tried)
      case _ => false
  }

  lemma Leaving(whole: Pass, job: Job, env: nat -> Turn, i: nat, tried: set<Key>, freed: nat, sofar: seq<Attempt>, exit: Exit)
    requires i < EVICTION_CEILING && Reached(whole, job, env, i, tried, freed, sofar) && Rightly(job, env(i), tried, freed, Leave(exit))
    ensures whole == Pass(sofar, exit)
  {
    RightDecision(job, env(i), tried, freed, Leave(exit));
    assert sofar + [] == sofar;
  }

  lemma Trying(whole: Pass, job: Job, env: nat -> Turn, i: nat, tried: set<Key>, freed: nat, sofar: seq<Attempt>, a: Attempt)
    requires i < EVICTION_CEILING && Reached(whole, job, env, i, tried, freed, sofar)
    requires Rightly(job, env(i), tried, freed, Try(a.target)) && a.sleep == env(i).sleep
    ensures if a.sleep.Threw? then whole == Pass(sofar + [a], Failed)
            else Reached(whole, job, env, i + 1, tried + {a.target.key}, freed + Credit(a), sofar + [a])
  {
    RightDecision(job, env(i), tried, freed, Try(a.target));
    assert Attempt(a.target, env(i).sleep) == a;
    if !a.sleep.Threw? {
      var rest := Turns(job, env, i + 1, tried + {a.target.key}, freed + Credit(a));
      assert sofar + ([a] + rest.attempts) == sofar + [a] + rest.attempts;
    }
  }

  lemma AtCeiling(whole: Pass, job: Job, env: nat -> Turn, i: nat, tried: set<Key>, freed: nat, sofar: seq<Attempt>)
    requires i == EVICTION_CEILING && Reached(whole, job, env, i, tried, freed, sofar)
    ensures whole == Pass(sofar, GaveUp)
  {
    assert sofar + [] == sofar;
  }

  /** What a stop that worked is credited. */
  method CreditOf(a: Attempt) returns (credit: nat)
    ensures credit == Credit(a)
  {
    credit := 0;
    if a.sleep.Slept? {
      credit := if a.sleep.rss.Some? then a.sleep.rss.value else DefaultRss(a.target.kind);
    }
  }

  /** One turn up to its stop. */
  method DecideTurn(job: Job, v: Turn, tried: set<Key>, freed: nat) returns (d: Decision)
    ensures Rightly(job, v, tried, freed, d)
  {
    RightDecision(job, v, tried, freed, Decide(job, v, tried, freed));
    if v.memory.None? {
      return Leave(Unreadable);
    }
    if Met(job, v.memory.value, freed) {
      return Leave(FloorMet);
    }
    var pool := Pool(job.cfg, v, v.targets, job.exclude, tried);
    if pool == [] {
      return Leave(NoVictim);
    }
    pool := InOrder(v, pool);
    return Try(pool[0]);
  }

  /** What one turn comes to: the pass is over, or it goes on with what the turn tried. */
  datatype Ending = Over(attempts: seq<Attempt>, exit: Exit) | GoesOn(a: Attempt)

  /** One turn of the loop. */
  method TakeTurn(job: Job, env: nat -> Turn, i: nat, tried: set<Key>, freed: nat, sofar: seq<Attempt>, ghost whole: Pass) returns (e: Ending)
    requires i < EVICTION_CEILING && Reached(whole, job, env, i, tried, freed, sofar)
    ensures e.Over? ==> whole == Pass(e.attempts, e.exit)
    ensures e.GoesOn? ==> Reached(whole, job, env, i + 1, tried + {e.a.target.key}, freed + Credit(e.a), sofar + [e.a])
  {
    var v := env(i);
    var d := DecideTurn(job, v, tried, freed);
    if d.Leave? {
      Leaving(whole, job, env, i, tried, freed, sofar, d.exit);
      return Over(sofar, d.exit);
    }
    var a := Attempt(d.target, v.sleep);
    Trying(whole, job, env, i, tried, freed, sofar, a);
    e := if v.sleep.Threw? then Over(sofar + [a], Failed) else GoesOn(a);
  }

  /** The turns of `evictForRoom`, with the baseline and the floor at hand. */
  method TakeTurns(job: Job, env: nat -> Turn, ghost whole: Pass) returns (attempts: seq<Attempt>, exit: Exit)
    requires Reached(whole, job, env, 0, {}, 0, [])
    ensures whole == Pass(attempts, exit)
  {
    var tried: set<Key> := {};
    var freed: nat := 0;
    var guard := 0;
    attempts := [];
    while guard < EVICTION_CEILING
      invariant 0 <= guard <= EVICTION_CEILING
      invariant Reached(whole, job, env, guard, tried, freed, attempts)
    {
      var e := TakeTurn(job, env, guard, tried, freed, attempts, whole);
      if e.Over? {
        return e.attempts, e.exit;
      }
      var credit := CreditOf(e.a);
      tried := tried + {e.a.target.key};
      attempts := attempts + [e.a];
      freed := freed + credit;
      guard := guard + 1;
    }
    AtCeiling(whole, job, env, guard, tried, freed, attempts);
    return attempts, GaveUp;
  }

  /** `evictForRoom`. `first` is the memory read before the loop. */
  method EvictForRoom(cfg: Config, env: nat -> Turn, first: Option<Memory>, need: nat, exclude: set<Key>)
    returns (attempts: seq<Attempt>, exit: Exit)
    ensures Pass(attempts, exit) == EvictionPass(cfg, env, first, need, exclude)
  {
    if cfg.ramFloorPct <= 0.0 {
      return [], Off;
    }
    if first.None? {
      return [], Unreadable;
    }
    var job := JobFor(cfg, first.value, need, exclude);
    ghost var whole := Turns(job, env, 0, {}, 0);
    assert [] + whole.attempts == whole.attempts;
    attempts, exit := TakeTurns(job, env, whole);
  }

  // ---- the order of eviction -------------------------------------------------------------------

  ghost predicate Sorted(v: Turn, ts: seq<Target>) {
    forall i, j :: 0 <= i < j < |ts| ==> !Before(v, ts[j], ts[i])
  }

  lemma {:induction false} InsertSorts(v: Turn, t: Target, ts: seq<Target>)
    requires Sorted(v, ts)
    ensures Sorted(v, Insert(v, t, ts))
    ensures forall x :: x in Insert(v, t, ts) <==> x == t || x in ts
  {
    if ts != [] && Before(v, ts[0], t) {
      InsertSorts(v, t, ts[1..]);
      assert ts == [ts[0]] + ts[1..];
      var r := Insert(v, t, ts[1..]);
      forall j | 0 <= j < |r| ensures !Before(v, r[j], ts[0]) {
        assert r[j] in r;
      }
    }
  }

  lemma {:induction false} InOrderSorts(v: Turn, ts: seq<Target>)
    ensures Sorted(v, InOrder(v, ts))
    ensures forall x :: x in InOrder(v, ts) <==> x in ts
  {
    if ts != [] {
      InOrderSorts(v, ts[1..]);
      InsertSorts(v, ts[0], InOrder(v, ts[1..]));
      assert ts == [ts[0]] + ts[1..];
    }
  }

  /** Of the targets from `from` on that meet every guard, number `i` comes first. */
  ghost predicate FirstFrom(job: Job, v: Turn, tried: set<Key>, from: nat, i: int) {
    && from <= i < |v.targets| && IsVictim(job.cfg, v, v.targets[i], job.exclude, tried)
    && (forall j :: from <= j < |v.targets| && IsVictim(job.cfg, v, v.targets[j], job.exclude, tried) ==> !Before(v, v.targets[j], v.targets[i]))
    && (forall j :: from <= j < i && IsVictim(job.cfg, v, v.targets[j], job.exclude, tried) ==> Before(v, v.targets[i], v.targets[j]))
  }

  lemma PoolFrom(job: Job, v: Turn, tried: set<Key>, from: nat)
    requires from < |v.targets|
    ensures var rest := Pool(job.cfg, v, v.targets[from + 1..], job.exclude, tried);
            && Pool(job.cfg, v, v.targets[from..], job.exclude, tried)
               == (if IsVictim(job.cfg, v, v.targets[from], job.exclude, tried) then [v.targets[from]] + rest else rest)
            && (rest == [] ==> forall j :: from < j < |v.targets| ==> !IsVictim(job.cfg, v, v.targets[j], job.exclude, tried))
  {
    assert v.targets[from..][1..] == v.targets[from + 1..];
    forall j | from < j < |v.targets| ensures v.targets[j] in v.targets[from + 1..] {
      assert v.targets[from + 1..][j - from - 1] == v.targets[j];
    }
  }

  /** The first of the sorted pool of `v.targets[from..]` is the one that comes first there. */
  lemma {:induction false} FirstVictim(job: Job, v: Turn, tried: set<Key>, from: nat) returns (i: int)
    requires from <= |v.targets| && Pool(job.cfg, v, v.targets[from..], job.exclude, tried) != []
    ensures FirstFrom(job, v, tried, from, i)
    ensures v.targets[i] == InOrder(v, Pool(job.cfg, v, v.targets[from..], job.exclude, tried))[0]
    decreases |v.targets| - from
  {
    PoolFrom(job, v, tried, from);
    var t := v.targets[from];
    var rest := Pool(job.cfg, v, v.targets[from + 1..], job.exclude, tried);
    assert ([t] + rest)[1..] == rest;
    if rest == [] {
      i := from;
    } else {
      i := FirstVictim(job, v, tried, from + 1);
      OneMoreTarget(job, v, tried, from, i);
      if IsVictim(job.cfg, v, t, job.exclude, tried) && !Before(v, v.targets[i], t) {
        i := from;
      }
    }
  }

  lemma OneMoreTarget(job: Job, v: Turn, tried: set<Key>, from: nat, i: int)
    requires from < |v.targets| && FirstFrom(job, v, tried, from + 1, i)
    ensures var wins := IsVictim(job.cfg, v, v.targets[from], job.exclude, tried) && !Before(v, v.targets[i], v.targets[from]);
            FirstFrom(job, v, tried, from, if wins then from else i)
  {
  }

  /** Exactly one decision is right, and it is the one the pass takes. */
  lemma RightDecision(job: Job, v: Turn, tried: set<Key>, freed: nat, d: Decision)
    ensures Rightly(job, v, tried, freed, d) <==> d == Decide(job, v, tried, freed)
  {
    var pool := Pool(job.cfg, v, v.targets, job.exclude, tried);
    assert v.targets[0..] == v.targets;
    assert forall t :: t in v.targets && IsVictim(job.cfg, v, t, job.exclude, tried) ==> t in pool;
    if pool != [] {
      var i := FirstVictim(job, v, tried, 0);
      assert IsFirst(job, v, tried, i) && v.targets[i] in pool;
      forall k | IsFirst(job, v, tried, k) ensures k == i {}
    }
  }

  // ---- what every pass keeps -------------------------------------------------------------------

  function KeysOf(attempts: seq<Attempt>): set<Key> {
    set a | a in attempts :: a.target.key
  }

  function Freed(attempts: seq<Attempt>): nat {
    if attempts == [] then 0 else Credit(attempts[0]) + Freed(attempts[1..])
  }

  /** An attempt after `tried` at a turn that saw `v`: memory was readable and short, and of everything that
      met every hard guard at that turn the one chosen comes first. */
  ghost predicate WellChosen(job: Job, v: Turn, a: Attempt, tried: set<Key>, freed: nat) {
    && v.memory.Some? && !Met(job, v.memory.value, freed)
    && a.sleep == v.sleep
    && ComesFirst(job, v, tried, a.target)
  }

  ghost predicate ComesFirst(job: Job, v: Turn, tried: set<Key>, t: Target) {
    exists i :: IsFirst(job, v, tried, i) && v.targets[i] == t
  }

  /** Why the pass ended. */
  ghost predicate EndsRightly(job: Job, env: nat -> Turn,
                              i: nat, tried: set<Key>, freed: nat, exit: Exit) {
    match exit
    case Off => false
    case Unreadable => env(i).memory.None?
    case FloorMet => env(i).memory.Some? && Met(job, env(i).memory.value, freed)
    case NoVictim => && env(i).memory.Some? && !Met(job, env(i).memory.value, freed)
                     && forall t :: t in env(i).targets ==> !IsVictim(job.cfg, env(i), t, job.exclude, tried)
    case Failed => i > 0 && env(i - 1).sleep.Threw?
    case GaveUp => i == EVICTION_CEILING
  }

  /** Every attempt of `p` is well chosen and its end is right, for a pass resumed at turn `i`. */
  ghost predicate Sound(job: Job, env: nat -> Turn,
                        i: nat, tried: set<Key>, freed: nat, p: Pass) {
    && i + |p.attempts| <= EVICTION_CEILING
    && (forall k :: 0 <= k < |p.attempts| ==> ChosenAt(job, env, i, tried, freed, p.attempts, k))
    && EndsRightly(job, env, i + |p.attempts|, tried + KeysOf(p.attempts), freed + Freed(p.attempts), p.exit)
  }

  ghost predicate ChosenAt(job: Job, env: nat -> Turn,
                           i: nat, tried: set<Key>, freed: nat, attempts: seq<Attempt>, k: nat)
    requires k < |attempts|
  {
    WellChosen(job, env(i + k), attempts[k], tried + KeysOf(attempts[..k]), freed + Freed(attempts[..k]))
  }

  lemma DecisionIsSound(job: Job, env: nat -> Turn, i: nat, tried: set<Key>, freed: nat)
    ensures match Decide(job, env(i), tried, freed)
            case Try(t) => WellChosen(job, env(i), Attempt(t, env(i).sleep), tried, freed)
            case Leave(exit) => EndsRightly(job, env, i, tried, freed, exit)
  {
    var v := env(i);
    var d := Decide(job, v, tried, freed);
    RightDecision(job, v, tried, freed, d);
    if d.Try? {
      var k :| IsFirst(job, v, tried, k) && v.targets[k] == d.target;
    }
  }

  lemma NothingTried(job: Job, env: nat -> Turn, i: nat, tried: set<Key>, freed: nat, exit: Exit)
    requires i <= EVICTION_CEILING && EndsRightly(job, env, i, tried, freed, exit)
    ensures Sound(job, env, i, tried, freed, Pass([], exit))
  {
    assert tried + KeysOf([]) == tried && freed + Freed([]) == freed;
  }

  lemma {:induction false} TurnsAreSound(job: Job, env: nat -> Turn, i: nat, tried: set<Key>, freed: nat)
    requires i <= EVICTION_CEILING
    ensures Sound(job, env, i, tried, freed, Turns(job, env, i, tried, freed))
    decreases EVICTION_CEILING - i
  {
    if i == EVICTION_CEILING {
      NothingTried(job, env, i, tried, freed, GaveUp);
    } else {
      match Decide(job, env(i), tried, freed)
      case Leave(exit) =>
        LeavingIsSound(job, env, i, tried, freed);
      case Try(t) =>
        if !env(i).sleep.Threw? {
          TurnsAreSound(job, env, i + 1, tried + {t.key}, freed + Credit(Attempt(t, env(i).sleep)));
        }
        TryingIsSound(job, env, i, tried, freed, Attempt(t, env(i).sleep));
    }
  }

  lemma LeavingIsSound(job: Job, env: nat -> Turn, i: nat, tried: set<Key>, freed: nat)
    requires i < EVICTION_CEILING && Decide(job, env(i), tried, freed).Leave?
    ensures Sound(job, env, i, tried, freed, Turns(job, env, i, tried, freed))
  {
    DecisionIsSound(job, env, i, tried, freed);
    NothingTried(job, env, i, tried, freed, Decide(job, env(i), tried, freed).exit);
  }

  lemma TryUnfolds(job: Job, env: nat -> Turn, i: nat, tried: set<Key>, freed: nat, a: Attempt)
    requires i < EVICTION_CEILING && Decide(job, env(i), tried, freed) == Try(a.target) && a.sleep == env(i).sleep
    ensures WellChosen(job, env(i), a, tried, freed)
    ensures var rest := Turns(job, env, i + 1, tried + {a.target.key}, freed + Credit(a));
            Turns(job, env, i, tried, freed)
            == if a.sleep.Threw? then Pass([a], Failed) else Pass([a] + rest.attempts, rest.exit)
  {
    DecisionIsSound(job, env, i, tried, freed);
    assert Attempt(a.target, env(i).sleep) == a;
  }

  lemma TryingIsSound(job: Job, env: nat -> Turn, i: nat, tried: set<Key>, freed: nat, a: Attempt)
    requires i < EVICTION_CEILING && Decide(job, env(i), tried, freed) == Try(a.target) && a.sleep == env(i).sleep
    requires !a.sleep.Threw? ==> Sound(job, env, i + 1, tried + {a.target.key}, freed + Credit(a),
                                       Turns(job, env, i + 1, tried + {a.target.key}, freed + Credit(a)))
    ensures Sound(job, env, i, tried, freed, Turns(job, env, i, tried, freed))
  {
    TryUnfolds(job, env, i, tried, freed, a);
    if a.sleep.Threw? {
      LastIsSound(job, env, i, tried, freed, a);
    } else {
      SoundFromNext(job, env, i, tried, freed, a, Turns(job, env, i + 1, tried + {a.target.key}, freed + Credit(a)));
    }
  }

  lemma LastIsSound(job: Job, env: nat -> Turn, i: nat, tried: set<Key>, freed: nat, a: Attempt)
    requires i < EVICTION_CEILING && a.sleep.Threw? && WellChosen(job, env(i), a, tried, freed)
    ensures Sound(job, env, i, tried, freed, Pass([a], Failed))
  {
    assert [a][..0] == [] && tried + KeysOf([]) == tried;
    assert ChosenAt(job, env, i, tried, freed, [a], 0);
  }

  lemma ChosenFromNext(job: Job, env: nat -> Turn, i: nat, tried: set<Key>, freed: nat, a: Attempt, rest: seq<Attempt>, k: nat)
    requires k < |rest| && ChosenAt(job, env, i + 1, tried + {a.target.key}, freed + Credit(a), rest, k)
    ensures ChosenAt(job, env, i, tried, freed, [a] + rest, k + 1)
  {
    var all := [a] + rest;
    Unfold(tried, freed, a, rest[..k]);
    assert all[..k + 1] == [a] + rest[..k];
    assert env(i + 1 + k) == env(i + (k + 1));
  }

  lemma FirstChosen(job: Job, env: nat -> Turn, i: nat, tried: set<Key>, freed: nat, a: Attempt, rest: seq<Attempt>)
    requires WellChosen(job, env(i), a, tried, freed)
    ensures ChosenAt(job, env, i, tried, freed, [a] + rest, 0)
  {
    assert ([a] + rest)[..0] == [] && tried + KeysOf([]) == tried;
  }

  lemma SoundFromNext(job: Job, env: nat -> Turn, i: nat, tried: set<Key>, freed: nat, a: Attempt, rest: Pass)
    requires Sound(job, env, i + 1, tried + {a.target.key}, freed + Credit(a), rest)
    requires WellChosen(job, env(i), a, tried, freed)
    ensures Sound(job, env, i, tried, freed, Pass([a] + rest.attempts, rest.exit))
  {
    var all := [a] + rest.attempts;
    Unfold(tried, freed, a, rest.attempts);
    assert i + |all| == i + 1 + |rest.attempts|;
    FirstChosen(job, env, i, tried, freed, a, rest.attempts);
    forall k | 0 < k < |all| ensures ChosenAt(job, env, i, tried, freed, all, k) {
      ChosenFromNext(job, env, i, tried, freed, a, rest.attempts, k - 1);
    }
  }

  lemma Unfold(tried: set<Key>, freed: nat, a: Attempt, rest: seq<Attempt>)
    ensures tried + {a.target.key} + KeysOf(rest) == tried + KeysOf([a] + rest)
    ensures freed + Credit(a) + Freed(rest) == freed + Freed([a] + rest)
  {
    assert ([a] + rest)[1..] == rest;
  }

  predicate AnyThrew(attempts: seq<Attempt>) {
    exists a :: a in attempts && a.sleep.Threw?
  }

  lemma OneMoreThrew(a: Attempt, rest: seq<Attempt>)
    ensures AnyThrew([a] + rest) <==> a.sleep.Threw? || AnyThrew(rest)
  {
    assert forall b :: b in [a] + rest <==> b == a || b in rest;
  }

  /** A stop that throws ends the pass, and nothing else makes it end so. */
  lemma {:induction false} ThrowEnds(job: Job, env: nat -> Turn, i: nat, tried: set<Key>, freed: nat)
    requires i <= EVICTION_CEILING
    ensures var p := Turns(job, env, i, tried, freed); p.exit == Failed <==> AnyThrew(p.attempts)
    decreases EVICTION_CEILING - i
  {
    if i < EVICTION_CEILING {
      match Decide(job, env(i), tried, freed)
      case Leave(exit) => RightDecision(job, env(i), tried, freed, Leave(exit));
      case Try(t) =>
        var a := Attempt(t, env(i).sleep);
        if !a.sleep.Threw? {
          ThrowEnds(job, env, i + 1, tried + {t.key}, freed + Credit(a));
        }
        ThrowEndsTry(job, env, i, tried, freed, a);
    }
  }

  lemma ThrowEndsTry(job: Job, env: nat -> Turn, i: nat, tried: set<Key>, freed: nat, a: Attempt)
    requires i < EVICTION_CEILING && Decide(job, env(i), tried, freed) == Try(a.target) && a.sleep == env(i).sleep
    requires var rest := Turns(job, env, i + 1, tried + {a.target.key}, freed + Credit(a));
             !a.sleep.Threw? ==> (rest.exit == Failed <==> AnyThrew(rest.attempts))
    ensures var p := Turns(job, env, i, tried, freed); p.exit == Failed <==> AnyThrew(p.attempts)
  {
    TryUnfolds(job, env, i, tried, freed, a);
    if a.sleep.Threw? {
      OneMoreThrew(a, []);
      assert [a] + [] == [a];
    } else {
      OneMoreThrew(a, Turns(job, env, i + 1, tried + {a.target.key}, freed + Credit(a)).attempts);
    }
  }

  /** The pass, whatever changes between its turns: no service is tried twice, each one chosen met every
      hard guard at its own turn and nothing eligible comes before it, nothing is stopped once the
      pass's own accounting meets the floor, and it ends for the reason it gives. */
  lemma PassIsSound(cfg: Config, env: nat -> Turn, first: Option<Memory>, need: nat, exclude: set<Key>)
    ensures var p := EvictionPass(cfg, env, first, need, exclude);
            && (forall j, k :: 0 <= j < k < |p.attempts| ==> p.attempts[j].target.key != p.attempts[k].target.key)
            && (p.exit == Off <==> cfg.ramFloorPct <= 0.0)
            && (p.exit == Failed <==> AnyThrew(p.attempts))
            && (first.None? || p.exit == Off ==> p.attempts == [] && p.exit in {Off, Unreadable})
            && (first.Some? && p.exit != Off ==> Sound(JobFor(cfg, first.value, need, exclude), env, 0, {}, 0, p))
  {
    var p := EvictionPass(cfg, env, first, need, exclude);
    if cfg.ramFloorPct > 0.0 && first.Some? {
      var job := JobFor(cfg, first.value, need, exclude);
      TurnsAreSound(job, env, 0, {}, 0);
      ThrowEnds(job, env, 0, {}, 0);
      forall j, k | 0 <= j < k < |p.attempts|
        ensures p.attempts[j].target.key != p.attempts[k].target.key
      {
        assert ChosenAt(job, env, 0, {}, 0, p.attempts, k);
        assert p.attempts[..k][j] in p.attempts[..k];
      }
    }
  }

  lemma {:induction false} DistinctKeysFit(attempts: seq<Attempt>, all: set<Key>)
    requires forall j, k :: 0 <= j < k < |attempts| ==> attempts[j].target.key != attempts[k].target.key
    requires forall a :: a in attempts ==> a.target.key in all
    ensures |attempts| <= |all|
  {
    if attempts != [] {
      var n := |attempts| - 1;
      DistinctKeysFit(attempts[..n], all - {attempts[n].target.key});
    }
  }

  /** The ceiling is out of reach while fewer keys than it ever name a target, however targets come and
      go during the pass. */
  lemma CeilingIsUnreachable(cfg: Config, env: nat -> Turn, first: Option<Memory>, need: nat, exclude: set<Key>, all: set<Key>)
    requires |all| < EVICTION_CEILING
    requires forall i: nat, t :: t in env(i).targets ==> t.key in all
    ensures EvictionPass(cfg, env, first, need, exclude).exit != GaveUp
    ensures |EvictionPass(cfg, env, first, need, exclude).attempts| <= |all|
  {
    PassIsSound(cfg, env, first, need, exclude);
    var p := EvictionPass(cfg, env, first, need, exclude);
    forall a | a in p.attempts ensures a.target.key in all {
      var k :| 0 <= k < |p.attempts| && p.attempts[k] == a;
      assert ChosenAt(JobFor(cfg, first.value, need, exclude), env, 0, {}, 0, p.attempts, k);
    }
    DistinctKeysFit(p.attempts, all);
  }

  // ---- a box that holds still ------------------------------------------------------------------

  predicate DistinctKeys(ts: seq<Target>) {
    forall i, j :: 0 <= i < j < |ts| ==> ts[i].key != ts[j].key
  }

  function Without(ts: seq<Target>, key: Key): (r: seq<Target>)
    ensures forall t :: t in r <==> t in ts && t.key != key
  {
    if ts == [] then []
    else
      var rest := Without(ts[1..], key);
      assert ts == [ts[0]] + ts[1..];
      if ts[0].key == key then rest else [ts[0]] + rest
  }

  lemma {:induction false} InsertWithout(v: Turn, t: Target, ts: seq<Target>, key: Key)
    requires Sorted(v, ts)
    ensures Without(Insert(v, t, ts), key) == if t.key == key then Without(ts, key) else Insert(v, t, Without(ts, key))
  {
    if ts == [] || !Before(v, ts[0], t) {
      assert ([t] + ts)[1..] == ts;
      var r := Without(ts, key);
      if r != [] {
        assert r[0] in ts;
      }
    } else {
      InsertWithout(v, t, ts[1..], key);
      assert ([ts[0]] + Insert(v, t, ts[1..]))[1..] == Insert(v, t, ts[1..]);
    }
  }

  lemma {:induction false} InOrderWithout(v: Turn, ts: seq<Target>, key: Key)
    ensures InOrder(v, Without(ts, key)) == Without(InOrder(v, ts), key)
  {
    if ts != [] {
      InOrderWithout(v, ts[1..], key);
      InOrderSorts(v, ts[1..]);
      InsertWithout(v, ts[0], InOrder(v, ts[1..]), key);
      if ts[0].key != key {
        assert ([ts[0]] + Without(ts[1..], key))[1..] == Without(ts[1..], key);
      }
    }
  }

  lemma {:induction false} PoolWithout(cfg: Config, v: Turn, ts: seq<Target>, exclude: set<Key>, tried: set<Key>, key: Key)
    ensures Pool(cfg, v, ts, exclude, tried + {key}) == Without(Pool(cfg, v, ts, exclude, tried), key)
  {
    if ts != [] {
      PoolWithout(cfg, v, ts[1..], exclude, tried, key);
    }
  }

  lemma {:induction false} InsertDistinct(v: Turn, t: Target, ts: seq<Target>)
    requires DistinctKeys(ts) && forall x :: x in ts ==> x.key != t.key
    ensures DistinctKeys(Insert(v, t, ts))
    ensures forall x :: x in Insert(v, t, ts) ==> x == t || x in ts
  {
    if ts != [] && Before(v, ts[0], t) {
      InsertDistinct(v, t, ts[1..]);
      var r := Insert(v, t, ts[1..]);
      forall i | 0 <= i < |r| ensures r[i].key != ts[0].key {
        assert r[i] in r;
      }
    }
  }

  lemma {:induction false} InOrderDistinct(v: Turn, ts: seq<Target>)
    requires DistinctKeys(ts)
    ensures DistinctKeys(InOrder(v, ts))
  {
    if ts != [] {
      InOrderDistinct(v, ts[1..]);
      InOrderSorts(v, ts[1..]);
      var rest := InOrder(v, ts[1..]);
      forall x | x in rest ensures x.key != ts[0].key {
        assert x in ts[1..];
      }
      InsertDistinct(v, ts[0], rest);
    }
  }

  lemma {:induction false} PoolDistinct(cfg: Config, v: Turn, ts: seq<Target>, exclude: set<Key>, tried: set<Key>)
    requires DistinctKeys(ts)
    ensures DistinctKeys(Pool(cfg, v, ts, exclude, tried))
  {
    if ts != [] {
      PoolDistinct(cfg, v, ts[1..], exclude, tried);
      var rest := Pool(cfg, v, ts[1..], exclude, tried);
      forall i | 0 <= i < |rest| ensures rest[i].key != ts[0].key {
        assert rest[i] in ts[1..];
      }
    }
  }

  lemma {:induction false} NothingToTakeOut(ts: seq<Target>, key: Key)
    requires forall t :: t in ts ==> t.key != key
    ensures Without(ts, key) == ts
  {
    if ts != [] {
      NothingToTakeOut(ts[1..], key);
    }
  }

  /** The eviction order of what is left after `tried`. */
  function Order(job: Job, v: Turn, tried: set<Key>): seq<Target> {
    InOrder(v, Pool(job.cfg, v, v.targets, job.exclude, tried))
  }

  lemma OrderAfterFirst(job: Job, v: Turn, tried: set<Key>)
    requires DistinctKeys(v.targets) && Order(job, v, tried) != []
    ensures Order(job, v, tried + {Order(job, v, tried)[0].key}) == Order(job, v, tried)[1..]
  {
    var pool := Pool(job.cfg, v, v.targets, job.exclude, tried);
    var order := InOrder(v, pool);
    var key := order[0].key;
    PoolWithout(job.cfg, v, v.targets, job.exclude, tried, key);
    InOrderWithout(v, pool, key);
    PoolDistinct(job.cfg, v, v.targets, job.exclude, tried);
    InOrderDistinct(v, pool);
    NothingToTakeOut(order[1..], key);
  }

  /** Only free memory and the outcome of the stops differ from turn to turn, and no stop throws. */
  ghost predicate Still(env: nat -> Turn, v: Turn) {
    forall i: nat :: env(i) == v.(memory := env(i).memory, sleep := env(i).sleep) && !env(i).sleep.Threw?
  }

  lemma {:induction false} SameOrder(cfg: Config, v: Turn, u: Turn, ts: seq<Target>, exclude: set<Key>, tried: set<Key>)
    requires u == v.(memory := u.memory, sleep := u.sleep)
    ensures Pool(cfg, u, ts, exclude, tried) == Pool(cfg, v, ts, exclude, tried)
    ensures InOrder(u, ts) == InOrder(v, ts)
  {
    if ts != [] {
      SameOrder(cfg, v, u, ts[1..], exclude, tried);
      SameInsert(v, u, ts[0], InOrder(v, ts[1..]));
    }
  }

  lemma {:induction false} SameInsert(v: Turn, u: Turn, t: Target, ts: seq<Target>)
    requires u == v.(memory := u.memory, sleep := u.sleep)
    ensures Insert(u, t, ts) == Insert(v, t, ts)
  {
    if ts != [] {
      SameInsert(v, u, t, ts[1..]);
    }
  }

  predicate Follows(order: seq<Target>, p: Pass) {
    && |p.attempts| <= |order|
    && (forall k :: 0 <= k < |p.attempts| ==> p.attempts[k].target == order[k])
    && p.exit in {Unreadable, FloorMet, NoVictim}
    && (p.exit == NoVictim ==> |p.attempts| == |order|)
  }

  lemma FollowsFromNext(order: seq<Target>, a: Attempt, rest: Pass)
    requires order != [] && a.target == order[0] && Follows(order[1..], rest)
    ensures Follows(order, Pass([a] + rest.attempts, rest.exit))
  {
    var p := Pass([a] + rest.attempts, rest.exit);
    forall k | 0 <= k < |p.attempts| ensures p.attempts[k].target == order[k] {
      if k > 0 {
        assert p.attempts[k] == rest.attempts[k - 1] && order[k] == order[1..][k - 1];
      }
    }
  }

  lemma StillDecision(job: Job, v: Turn, u: Turn, tried: set<Key>, freed: nat)
    requires u == v.(memory := u.memory, sleep := u.sleep)
    ensures match Decide(job, u, tried, freed)
            case Leave(exit) => exit in {Unreadable, FloorMet, NoVictim} && (exit == NoVictim ==> Order(job, v, tried) == [])
            case Try(t) => Order(job, v, tried) != [] && t == Order(job, v, tried)[0]
  {
    SameOrder(job.cfg, v, u, v.targets, job.exclude, tried);
    SameOrder(job.cfg, v, u, Pool(job.cfg, v, v.targets, job.exclude, tried), job.exclude, tried);
  }

  /** While the services hold still, the pass tries them one by one in the one eviction order, and if it
      does not reach the floor it has tried them all. */
  lemma {:induction false} StillPassFollowsTheOrder(job: Job, env: nat -> Turn, v: Turn, i: nat, tried: set<Key>, freed: nat)
    requires Still(env, v) && DistinctKeys(v.targets) && i + |Order(job, v, tried)| < EVICTION_CEILING
    ensures Follows(Order(job, v, tried), Turns(job, env, i, tried, freed))
    decreases |Order(job, v, tried)|
  {
    StillDecision(job, v, env(i), tried, freed);
    match Decide(job, env(i), tried, freed)
    case Leave(exit) =>
      assert Turns(job, env, i, tried, freed) == Pass([], exit);
    case Try(t) =>
      var a := Attempt(t, env(i).sleep);
      OrderAfterFirst(job, v, tried);
      StillPassFollowsTheOrder(job, env, v, i + 1, tried + {t.key}, freed + Credit(a));
      var rest := Turns(job, env, i + 1, tried + {t.key}, freed + Credit(a));
      FollowsFromNext(Order(job, v, tried), a, rest);
      assert Turns(job, env, i, tried, freed) == Pass([a] + rest.attempts, rest.exit);
  }
}

/** What an eviction pass does, said over the ledger, the state cache and the memory readings alone: which
    service it may stop at a turn, which one it stops, and when it stops trying. */
module EvictionOrder {
  import opened Eviction

  /** A service the ledger has not seen counts as active now. */
  function ActiveAt(v: Turn, key: Key): int {
    if key in v.ledger then v.ledger[key].lastActiveAt else v.now
  }

  /** A size nobody sampled counts as 0. */
  function SizeOf(v: Turn, key: Key): nat {
    if key in v.ledger && v.ledger[key].lastRssBytes.Some? then v.ledger[key].lastRssBytes.value else 0
  }

  /** The service was seen running, and recently; it is wanted running, and not always; nobody works on it or
      holds it; it has been quiet, and was not just woken. */
  predicate MayGo(cfg: Config, v: Turn, t: Target, spared: set<Key>) {
    && t.key !in spared
    && t.container in v.cache && v.cache[t.container].running && v.now < v.cache[t.container].at + cfg.maxStateAgeMs
    && t.desired == WantRunning && !t.alwaysOn
    && t.key !in v.busy && (t.key in v.holds ==> v.holds[t.key] == 0)
    && ActiveAt(v, t.key) + 2 * cfg.touchDebounceMs <= v.now
    && (t.key in v.ledger && v.ledger[t.key].wokeAt.Some? ==> v.ledger[t.key].wokeAt.value + cfg.wakeProtectSec * 1000 <= v.now)
  }

  /** Target number `i` may go, and of all that may it was active longest ago, then is the biggest, then is
      listed first. */
  predicate GoesFirst(cfg: Config, v: Turn, spared: set<Key>, i: nat) {
    && i < |v.targets| && MayGo(cfg, v, v.targets[i], spared)
    && forall j :: 0 <= j < |v.targets| && MayGo(cfg, v, v.targets[j], spared) ==> NoLaterThan(v, i, j)
  }

  predicate NoLaterThan(v: Turn, i: nat, j: nat)
    requires i < |v.targets| && j < |v.targets|
  {
    var a, b := v.targets[i].key, v.targets[j].key;
    && ActiveAt(v, a) <= ActiveAt(v, b)
    && (ActiveAt(v, a) == ActiveAt(v, b) ==> SizeOf(v, a) >= SizeOf(v, b))
    && (ActiveAt(v, a) == ActiveAt(v, b) && SizeOf(v, a) == SizeOf(v, b) ==> i <= j)
  }

  /** What the attempts freed: what the ledger knew of each service that went to sleep, and for one it knew
      nothing of 256 MiB, or 128 MiB for a branch's postgres. */
  function FreedBy(attempts: seq<Attempt>): nat {
    if attempts == [] then 0
    else
      var a := attempts[|attempts| - 1];
      FreedBy(attempts[..|attempts| - 1]) +
      if !a.sleep.Slept? then 0
      else if a.sleep.rss.Some? then a.sleep.rss.value
      else if a.target.kind.Postgres? then 134217728
      else 268435456
  }

  /** With `need` taken off, what the box reports is short of the floor, and so is what it reported at first
      with what the pass freed since. */
  predicate Short(cfg: Config, first: Memory, mem: Memory, need: nat, freed: nat) {
    var floor := first.total as real * (cfg.ramFloorPct / 100.0);
    (mem.available - need) as real < floor && (first.available + freed - need) as real < floor
  }

  lemma GuardsSpeltOut(job: Job, v: Turn, t: Target, tried: set<Key>)
    ensures IsVictim(job.cfg, v, t, job.exclude, tried) <==> MayGo(job.cfg, v, t, job.exclude + tried)
  {
  }

  lemma FirstSpeltOut(job: Job, v: Turn, tried: set<Key>, i: nat)
    requires IsFirst(job, v, tried, i)
    ensures GoesFirst(job.cfg, v, job.exclude + tried, i)
  {
    forall j | 0 <= j < |v.targets| ensures IsVictim(job.cfg, v, v.targets[j], job.exclude, tried) <==> MayGo(job.cfg, v, v.targets[j], job.exclude + tried) {
      GuardsSpeltOut(job, v, v.targets[j], tried);
    }
  }

  lemma {:induction false} FreedSpeltOut(attempts: seq<Attempt>)
    ensures Freed(attempts) == FreedBy(attempts)
  {
    if attempts != [] {
      var n := |attempts| - 1;
      FreedSpeltOut(attempts[..n]);
      FreedAtEnd(attempts[..n], attempts[n]);
      assert attempts == attempts[..n] + [attempts[n]];
    }
  }

  lemma {:induction false} FreedAtEnd(attempts: seq<Attempt>, a: Attempt)
    ensures Freed(attempts + [a]) == Freed(attempts) + Credit(a)
  {
    if attempts != [] {
      assert (attempts + [a])[1..] == attempts[1..] + [a];
      FreedAtEnd(attempts[1..], a);
    } else {
      assert attempts + [a] == [a];
    }
  }

  lemma FloorSpeltOut(cfg: Config, first: Memory, need: nat, exclude: set<Key>, mem: Memory, freed: nat)
    ensures Met(JobFor(cfg, first, need, exclude), mem, freed) <==> !Short(cfg, first, mem, need, freed)
  {
  }

  /** The services a pass leaves alone at attempt `k`: those it was told to, and those it tried before. */
  function Spared(exclude: set<Key>, attempts: seq<Attempt>, k: nat): set<Key>
    requires k <= |attempts|
  {
    exclude + set j | 0 <= j < k :: attempts[j].target.key
  }

  lemma SparedIs(exclude: set<Key>, attempts: seq<Attempt>, k: nat)
    requires k <= |attempts|
    ensures Spared(exclude, attempts, k) == exclude + KeysOf(attempts[..k])
  {
    forall key ensures key in KeysOf(attempts[..k]) <==> key in (set j | 0 <= j < k :: attempts[j].target.key) {
      if j :| 0 <= j < k && attempts[j].target.key == key {
        assert attempts[..k][j] in attempts[..k];
      }
    }
  }

  /** At every turn the pass tries the one service that goes first, and only while memory is short. */
  lemma TheIdlestGoes(cfg: Config, env: nat -> Turn, first: Option<Memory>, need: nat, exclude: set<Key>, k: nat)
    requires k < |EvictionPass(cfg, env, first, need, exclude).attempts|
    ensures var attempts := EvictionPass(cfg, env, first, need, exclude).attempts;
            && cfg.ramFloorPct > 0.0 && first.Some? && env(k).memory.Some?
            && Short(cfg, first.value, env(k).memory.value, need, FreedBy(attempts[..k]))
            && attempts[k].sleep == env(k).sleep
            && exists i: nat :: GoesFirst(cfg, env(k), Spared(exclude, attempts, k), i) && env(k).targets[i] == attempts[k].target
  {
    PassIsSound(cfg, env, first, need, exclude);
    var attempts := EvictionPass(cfg, env, first, need, exclude).attempts;
    var job := JobFor(cfg, first.value, need, exclude);
    var v, tried := env(k), KeysOf(attempts[..k]);
    assert ChosenAt(job, env, 0, {}, 0, attempts, k);
    assert {} + tried == tried && env(0 + k) == v;
    FreedSpeltOut(attempts[..k]);
    FloorSpeltOut(cfg, first.value, need, exclude, v.memory.value, FreedBy(attempts[..k]));
    var i :| IsFirst(job, v, tried, i) && v.targets[i] == attempts[k].target;
    FirstSpeltOut(job, v, tried, i);
    SparedIs(exclude, attempts, k);
  }

  /** It ends with the floor met exactly when one of the two readings reaches it, and with no victim exactly
      when memory is short and nothing may go. */
  lemma WhyItEnds(cfg: Config, env: nat -> Turn, first: Option<Memory>, need: nat, exclude: set<Key>)
    requires cfg.ramFloorPct > 0.0 && first.Some?
    ensures var p := EvictionPass(cfg, env, first, need, exclude);
            var n := |p.attempts|;
            && (p.exit == Unreadable ==> env(n).memory.None?)
            && (p.exit == FloorMet ==>
                  env(n).memory.Some? && !Short(cfg, first.value, env(n).memory.value, need, FreedBy(p.attempts)))
            && (p.exit == NoVictim ==>
                  && env(n).memory.Some? && Short(cfg, first.value, env(n).memory.value, need, FreedBy(p.attempts))
                  && forall t :: t in env(n).targets ==> !MayGo(cfg, env(n), t, Spared(exclude, p.attempts, n)))
            && (p.exit == Failed ==> n > 0 && p.attempts[n - 1].sleep.Threw?)
            && (p.exit == GaveUp ==> n == 10000)
            && p.exit != Off
  {
    PassIsSound(cfg, env, first, need, exclude);
    var p := EvictionPass(cfg, env, first, need, exclude);
    var n := |p.attempts|;
    var job := JobFor(cfg, first.value, need, exclude);
    assert p.attempts[..n] == p.attempts;
    FreedSpeltOut(p.attempts);
    SparedIs(exclude, p.attempts, n);
    if env(n).memory.Some? {
      FloorSpeltOut(cfg, first.value, need, exclude, env(n).memory.value, FreedBy(p.attempts));
    }
    var tried := KeysOf(p.attempts);
    assert {} + tried == tried;
    forall t | t in env(n).targets ensures IsVictim(cfg, env(n), t, exclude, tried) <==> MayGo(cfg, env(n), t, exclude + tried) {
      GuardsSpeltOut(job, env(n), t, tried);
    }
    if p.exit == Failed {
      assert ChosenAt(job, env, 0, {}, 0, p.attempts, n - 1);
    }
  }
}

/** Where what the container snapshot believes comes from, over every run of reads, single facts and drops:
    which event gave the fact, that nothing since spoke against it, and how long it is acted on. */
module SnapshotFacts {
  import opened Snapshot

  /** The event says this of the container: a read what it lists, as of when it was issued, and a record what was
      seen to happen, as of then. */
  predicate Gives(e: Timed, name: string, state: State, at: int) {
    match e.event
    case Answer(issued, listing, _) => name in listing && listing[name].state == state && at == issued
    case Record(n, s) => n == name && s == state && at == e.at
    case _ => false
  }

  /** The event puts an end to a fact dated `at`: any record or drop of the container does, and a read unless it
      was issued before. */
  predicate Overrides(e: Timed, name: string, at: int) {
    match e.event
    case Issue => false
    case Answer(issued, _, _) => at <= issued
    case Record(n, _) => n == name
    case Drop(n) => n == name
  }

  predicate Believes(cache: Cache, name: string, state: State, at: int) {
    name in cache && cache[name].state == state && cache[name].at == at
  }

  /** Event number `i` gave the fact, and none since put an end to it. */
  predicate Stands(run: seq<Timed>, i: int, name: string, state: State, at: int) {
    0 <= i < |run| && Gives(run[i], name, state, at) && forall j :: i < j < |run| ==> !Overrides(run[j], name, at)
  }


  /** What one event makes of the snapshot. */
  function Applied(cache: Cache, e: Timed): Cache {
    match e.event
    case Issue => cache
    case Answer(issued, listing, _) => Absorbed(cache, listing, issued)
    case Record(name, state) => Stamped(cache, name, state, e.at)
    case Drop(name) => cache - {name}
  }

  lemma OneMore(run: seq<Timed>, e: Timed)
    ensures After(run + [e]) == Applied(After(run), e)
  {
    assert (run + [e])[..|run|] == run;
  }

  /** What is believed was given by some event, and nothing since put an end to it. */
  lemma {:induction false} BeliefStands(run: seq<Timed>, name: string)
    requires name in After(run)
    ensures exists i :: Stands(run, i, name, After(run)[name].state, After(run)[name].at)
  {
    var n := |run| - 1;
    var init, e := run[..n], run[n];
    assert run == init + [e];
    OneMore(init, e);
    var f := After(run)[name];
    if Gives(e, name, f.state, f.at) {
      assert Stands(run, n, name, f.state, f.at);
    } else {
      assert Believes(After(init), name, f.state, f.at) && !Overrides(e, name, f.at);
      BeliefStands(init, name);
      var i :| Stands(init, i, name, f.state, f.at);
      assert Stands(run, i, name, f.state, f.at);
    }
  }

  /** A fact stays believed while nothing puts an end to it. */
  lemma {:induction false} BeliefStays(run: seq<Timed>, more: seq<Timed>, name: string, state: State, at: int)
    requires Believes(After(run), name, state, at)
    requires forall j :: 0 <= j < |more| ==> !Overrides(more[j], name, at)
    ensures Believes(After(run + more), name, state, at)
    decreases |more|
  {
    if more == [] {
      assert run + more == run;
    } else {
      var n := |more| - 1;
      BeliefStays(run, more[..n], name, state, at);
      OneMore(run + more[..n], more[n]);
      assert run + more == run + more[..n] + [more[n]];
    }
  }

  /** How old a fact may be and still be acted on: less than two sweeps, or half a minute if that is more. */
  predicate IsFresh(at: int, now: int, sweepSec: nat) {
    now < at + 2000 * sweepSec || now < at + 30000
  }

  /** What a caller saw happen is believed at once, whatever was known, and until another record or a drop of the
      container or a read issued no earlier: reads issued before it never undo it. When it is that the container
      runs, the sweep and the eviction pass see it running exactly until the fact is too old. */
  lemma WhatWasSeenIsBelieved(run: seq<Timed>, i: nat, name: string, now: int, sweepSec: nat)
    requires i < |run| && run[i].event.Record? && run[i].event.name == name
    requires forall j :: i < j < |run| ==> !Overrides(run[j], name, run[i].at)
    ensures Believes(After(run), name, run[i].event.state, run[i].at)
    ensures ObservedRunning(After(run), name, now, sweepSec) <==> run[i].event.state == Running && IsFresh(run[i].at, now, sweepSec)
  {
    OneMore(run[..i], run[i]);
    assert run[..i] + [run[i]] == run[..i + 1];
    var more := run[i + 1..];
    assert run[..i + 1] + more == run;
    BeliefStays(run[..i + 1], more, name, run[i].event.state, run[i].at);
  }

  /** Nothing known of the container before event number `i` is newer than that read. */
  ghost predicate NothingNewer(run: seq<Timed>, i: nat, name: string)
    requires i < |run| && run[i].event.Answer?
  {
    forall j, state: State, at: int :: 0 <= j < i && Gives(run[j], name, state, at) ==> at <= run[i].event.issued
  }

  lemma ListedThen(run: seq<Timed>, i: nat, name: string)
    requires i < |run| && run[i].event.Answer? && name in run[i].event.listing && NothingNewer(run, i, name)
    ensures name in After(run[..i + 1])
    ensures var l := run[i].event.listing[name]; After(run[..i + 1])[name] == Fact(l.state, l.id, run[i].event.issued)
  {
    OneMore(run[..i], run[i]);
    assert run[..i] + [run[i]] == run[..i + 1];
    if name in After(run[..i]) {
      BeliefStands(run[..i], name);
      var f := After(run[..i])[name];
      var j :| Stands(run[..i], j, name, f.state, f.at);
      assert Gives(run[j], name, f.state, f.at);
    }
  }

  /** The same of what a read lists, when nothing known before is newer than the read. */
  lemma WhatWasListedIsBelieved(run: seq<Timed>, i: nat, name: string, now: int, sweepSec: nat)
    requires i < |run| && run[i].event.Answer? && name in run[i].event.listing && NothingNewer(run, i, name)
    requires forall j :: i < j < |run| ==> !Overrides(run[j], name, run[i].event.issued)
    ensures var state, at := run[i].event.listing[name].state, run[i].event.issued;
            && Believes(After(run), name, state, at)
            && (ObservedRunning(After(run), name, now, sweepSec) <==> state == Running && IsFresh(at, now, sweepSec))
  {
    var state, at := run[i].event.listing[name].state, run[i].event.issued;
    ListedThen(run, i, name);
    var more := run[i + 1..];
    assert run[..i + 1] + more == run;
    BeliefStays(run[..i + 1], more, name, state, at);
  }

  /** A container that a read does not list is forgotten, unless something newer than the read is known. */
  lemma WhatIsNotListedIsForgotten(run: seq<Timed>, e: Timed, name: string)
    requires e.event.Answer? && name !in e.event.listing
    ensures name in After(run + [e]) <==> name in After(run) && After(run)[name].at > e.event.issued
  {
    OneMore(run, e);
  }

  predicate HasId(cache: Cache, name: string, id: string, at: int) {
    name in cache && cache[name].id == id && cache[name].at >= at
  }

  /** The event may say of a container known since `at` which one it is: a read issued no earlier, or a drop. */
  predicate Renews(e: Timed, name: string, at: int) {
    match e.event
    case Answer(issued, _, _) => at <= issued
    case Drop(n) => n == name
    case _ => false
  }

  lemma {:induction false} IdStays(run: seq<Timed>, more: seq<Timed>, name: string, id: string, at: int)
    requires HasId(After(run), name, id, at)
    requires forall j :: 0 <= j < |more| ==> !Renews(more[j], name, at) && more[j].at >= at
    ensures HasId(After(run + more), name, id, at)
    decreases |more|
  {
    if more == [] {
      assert run + more == run;
    } else {
      var n := |more| - 1;
      IdStays(run, more[..n], name, id, at);
      OneMore(run + more[..n], more[n]);
      assert run + more == run + more[..n] + [more[n]];
    }
  }

  /** Which container goes by a name is what the read said that listed it, whatever callers record of it since,
      until a read issued no earlier or a drop. */
  lemma WhichOneIsAsListed(run: seq<Timed>, i: nat, name: string)
    requires i < |run| && run[i].event.Answer? && name in run[i].event.listing && NothingNewer(run, i, name)
    requires forall j :: i < j < |run| ==> !Renews(run[j], name, run[i].event.issued) && run[j].at >= run[i].event.issued
    ensures name in After(run) && After(run)[name].id == run[i].event.listing[name].id
  {
    ListedThen(run, i, name);
    var more := run[i + 1..];
    assert run[..i + 1] + more == run;
    IdStays(run[..i + 1], more, name, run[i].event.listing[name].id, run[i].event.issued);
  }
}

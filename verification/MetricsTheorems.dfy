/** What the metrics store promises: pruning and earlier incarnations change no answer, buckets hold
    exactly their samples, no series has more than 2000 points, and a saved store loads back. */
module MetricsTheorems {

  import opened Metrics

  // ---- pruning and earlier incarnations change no answer ---------------------------------------

  /** Dropping the first `d` samples changes nothing when none of them is in the window and no later
      sample is rated against them. */
  lemma {:induction false} DroppedFill(xs: seq<Sample>, d: nat, n: nat, w: Window, since: real)
    requires d <= n <= |xs| && w.step > 0
    requires forall m :: 0 <= m < d ==> !InWindow(xs[m], w, since)
    requires 0 < d < |xs| && InWindow(xs[d], w, since) ==> !Rated(xs, d, since)
    ensures Filled(xs, n, w, since) == Filled(xs[d..], n - d, w, since)
    decreases n
  {
    if n > d {
      DroppedFill(xs, d, n - 1, w, since);
      var ys := xs[d..];
      assert ys[n - 1 - d] == xs[n - 1];
      if n - 1 > d {
        assert ys[n - 2 - d] == xs[n - 2];
      }
    } else if n > 0 {
      NothingFilled(xs, n, w, since);
    }
  }

  lemma {:induction false} NothingFilled(xs: seq<Sample>, n: nat, w: Window, since: real)
    requires n <= |xs| && w.step > 0
    requires forall m :: 0 <= m < n ==> !InWindow(xs[m], w, since)
    ensures Filled(xs, n, w, since) == map[]
  {
    if n > 0 {
      NothingFilled(xs, n - 1, w, since);
    }
  }

  /** Two stores that fill the same buckets for every target answer alike. */
  lemma {:induction false} AnswersAlike(h: History, g: History, targets: seq<Target>, w: Window)
    requires w.step > 0
    requires forall t :: t in targets ==>
               Filled(Of(h, t.container), |Of(h, t.container)|, w, t.since) == Filled(Of(g, t.container), |Of(g, t.container)|, w, t.since)
    ensures Answer(h, targets, w) == Answer(g, targets, w)
  {
    if targets != [] {
      AnswersAlike(h, g, targets[..|targets| - 1], w);
      assert targets[|targets| - 1] in targets;
    }
  }

  /** Pruning never changes the answer of a query that starts at least one rate gap inside what is
      retained, whatever the store holds. */
  lemma PruneChangesNoAnswer(h: History, now: real, targets: seq<Target>, w: Window)
    requires w.step > 0 && w.from >= now - RETENTION_SEC + MAX_RATE_GAP_SEC
    ensures Answer(Pruned(h, now), targets, w) == Answer(h, targets, w)
  {
    var cutoff := now - RETENTION_SEC;
    forall t | t in targets
      ensures Filled(Of(Pruned(h, now), t.container), |Of(Pruned(h, now), t.container)|, w, t.since)
           == Filled(Of(h, t.container), |Of(h, t.container)|, w, t.since)
    {
      var xs := Of(h, t.container);
      var d := Stale(xs, cutoff);
      DroppedFill(xs, d, |xs|, w, t.since);
      assert Of(Pruned(h, now), t.container) == xs[d..];
    }
    AnswersAlike(Pruned(h, now), h, targets, w);
  }

  /** Hence every window of seven days that ends at the pruning instant. */
  lemma SevenDaysSurvivePruning(h: History, now: real, targets: seq<Target>, step: int)
    requires step > 0
    ensures var w := Window(now - 7.0 * 86400.0, now, step);
            Answer(Pruned(h, now), targets, w) == Answer(h, targets, w)
  {
    PruneChangesNoAnswer(h, now, targets, Window(now - 7.0 * 86400.0, now, step));
  }

  /** One second less of margin is not enough: the rate of the first sample in the window goes. */
  lemma MarginIsNeeded(now: real, step: int)
    requires step > 0
    ensures var cutoff := now - RETENTION_SEC;
            var xs := [Sample(cutoff - 1.0, 0.0, 0.0, 0.0, 0.0, 0.0, 1.0), Sample(cutoff + 119.0, 0.0, 0.0, 0.0, 0.0, 0.0, 1.0)];
            var w := Window(cutoff + MAX_RATE_GAP_SEC - 1.0, now, step);
            var key := BucketStart(cutoff + 119.0, step);
            && Filled(xs, 2, w, cutoff - 1.0) == map[key := Bucket(0.0, 0.0, 1, 0.0, 0.0, 1)]
            && Fresh(xs, cutoff) == xs[1..]
            && Filled(xs[1..], 1, w, cutoff - 1.0) == map[key := Bucket(0.0, 0.0, 1, 0.0, 0.0, 0)]
  {
    var cutoff := now - RETENTION_SEC;
    var since := cutoff - 1.0;
    var xs := [Sample(cutoff - 1.0, 0.0, 0.0, 0.0, 0.0, 0.0, 1.0), Sample(cutoff + 119.0, 0.0, 0.0, 0.0, 0.0, 0.0, 1.0)];
    var w := Window(cutoff + MAX_RATE_GAP_SEC - 1.0, now, step);
    assert Rated(xs, 1, since) && InWindow(xs[1], w, since);
    NothingFilled(xs, 1, w, since);
    assert Add(Zero, xs, 1, since) == Bucket(0.0, 0.0, 1, 0.0, 0.0, 1);
    assert Filled(xs[1..], 0, w, since) == map[];
    assert Stale(xs[1..], cutoff) == 0;
  }

  predicate Ordered(xs: seq<Sample>) {
    forall i, j :: 0 <= i < j < |xs| ==> xs[i].t < xs[j].t
  }

  lemma OnlyFreshCounts(xs: seq<Sample>, w: Window, since: real)
    requires w.step > 0
    ensures Filled(xs, |xs|, w, since) == Filled(Fresh(xs, since), |Fresh(xs, since)|, w, since)
  {
    DroppedFill(xs, Stale(xs, since), |xs|, w, since);
  }

  /** Samples from before a target's `since` never influence what it is answered, rates included:
      only the samples from then on do. */
  lemma EarlierIncarnationInvisible(h: History, g: History, targets: seq<Target>, w: Window)
    requires w.step > 0
    requires forall t :: t in targets ==>
               Fresh(Of(h, t.container), t.since) == Fresh(Of(g, t.container), t.since)
    ensures Answer(h, targets, w) == Answer(g, targets, w)
  {
    forall t | t in targets
      ensures Filled(Of(h, t.container), |Of(h, t.container)|, w, t.since) == Filled(Of(g, t.container), |Of(g, t.container)|, w, t.since)
    {
      OnlyFreshCounts(Of(h, t.container), w, t.since);
      OnlyFreshCounts(Of(g, t.container), w, t.since);
    }
    AnswersAlike(h, g, targets, w);
  }

  // ---- what a bucket holds ---------------------------------------------------------------------

  /** The samples in the window that floor onto one bucket start. */
  function Members(xs: seq<Sample>, n: nat, w: Window, since: real, key: int): (ns: set<nat>)
    requires n <= |xs| && w.step > 0
  {
    set m: nat | m < n && InWindow(xs[m], w, since) && BucketStart(xs[m].t, w.step) == key
  }

  datatype Reading = Cpu | Memory | Received | Sent

  /** What one sample adds to its bucket: levels as they are, counters as a rate since the sample before. */
  function Contribution(what: Reading, xs: seq<Sample>, m: nat, since: real): real
    requires m < |xs|
  {
    match what
    case Cpu => xs[m].cpu
    case Memory => xs[m].mem
    case Received => if Rated(xs, m, since) then (xs[m].rx - xs[m - 1].rx) / (xs[m].t - xs[m - 1].t) else 0.0
    case Sent => if Rated(xs, m, since) then (xs[m].tx - xs[m - 1].tx) / (xs[m].t - xs[m - 1].t) else 0.0
  }

  function Total(what: Reading, xs: seq<Sample>, n: nat, w: Window, since: real, key: int): real
    requires n <= |xs| && w.step > 0
  {
    if n == 0 then 0.0
    else Total(what, xs, n - 1, w, since, key)
         + if Hits(xs, n - 1, w, since, key) then Contribution(what, xs, n - 1, since) else 0.0
  }

  /** The members whose counters were differenced against the sample before. */
  function RatedMembers(xs: seq<Sample>, n: nat, w: Window, since: real, key: int): set<nat>
    requires n <= |xs| && w.step > 0
  {
    set m | m in Members(xs, n, w, since, key) && Rated(xs, m, since)
  }

  predicate Hits(xs: seq<Sample>, m: nat, w: Window, since: real, key: int)
    requires m < |xs| && w.step > 0
  {
    InWindow(xs[m], w, since) && BucketStart(xs[m].t, w.step) == key
  }

  lemma MembersStep(xs: seq<Sample>, n: nat, w: Window, since: real, key: int)
    requires 0 < n <= |xs| && w.step > 0
    ensures var before, after := Members(xs, n - 1, w, since, key), Members(xs, n, w, since, key);
            && n - 1 !in before && after == (if Hits(xs, n - 1, w, since, key) then before + {n - 1} else before)
    ensures var before, after := RatedMembers(xs, n - 1, w, since, key), RatedMembers(xs, n, w, since, key);
            && n - 1 !in before
            && after == (if Hits(xs, n - 1, w, since, key) && Rated(xs, n - 1, since) then before + {n - 1} else before)
  {
    var before, after := Members(xs, n - 1, w, since, key), Members(xs, n, w, since, key);
    assert after == if Hits(xs, n - 1, w, since, key) then before + {n - 1} else before;
  }

  lemma FilledStep(xs: seq<Sample>, n: nat, w: Window, since: real, key: int)
    requires 0 < n <= |xs| && w.step > 0
    ensures var before, after := Filled(xs, n - 1, w, since), Filled(xs, n, w, since);
            if Hits(xs, n - 1, w, since, key) then
              key in after && after[key] == Add(if key in before then before[key] else Zero, xs, n - 1, since)
            else
              (key in after <==> key in before) && (key in after ==> after[key] == before[key])
  {
  }

  /** What a bucket adds up to, or the empty bucket where there is none. */
  function BucketAt(m: map<int, Bucket>, key: int): Bucket {
    if key in m then m[key] else Zero
  }

  /** A bucket is there exactly when some sample floors onto it, counts exactly those samples, adds up
      exactly their readings, and rates exactly the ones with a differenceable predecessor. */
  lemma {:induction false} BucketsAreExact(xs: seq<Sample>, n: nat, w: Window, since: real, key: int)
    requires n <= |xs| && w.step > 0
    ensures var m := Filled(xs, n, w, since);
            && (key in m <==> Members(xs, n, w, since, key) != {})
            && BucketAt(m, key).samples == |Members(xs, n, w, since, key)|
            && BucketAt(m, key).cpu == Total(Cpu, xs, n, w, since, key)
            && BucketAt(m, key).mem == Total(Memory, xs, n, w, since, key)
            && BucketAt(m, key).rx == Total(Received, xs, n, w, since, key)
            && BucketAt(m, key).tx == Total(Sent, xs, n, w, since, key)
            && BucketAt(m, key).rates == |RatedMembers(xs, n, w, since, key)|
  {
    if n > 0 {
      BucketsAreExact(xs, n - 1, w, since, key);
      MembersStep(xs, n, w, since, key);
      FilledStep(xs, n, w, since, key);
    }
  }

  /** A series has one point for every bucket it can show, in ascending order of bucket start. */
  lemma {:induction false} PointsAreExact(metric: Metric, keys: seq<int>, m: map<int, Bucket>)
    requires Ascending(keys) && forall k :: k in keys ==> k in m && m[k].samples > 0
    ensures var ps := Points(metric, keys, m);
            && (forall i, j :: 0 <= i < j < |ps| ==> ps[i].0 < ps[j].0)
            && (forall p :: p in ps <==> p.0 in keys && Shows(metric, m[p.0]) && p.1 == Shown(metric, m[p.0]))
  {
    if keys != [] {
      var init := keys[..|keys| - 1];
      PointsAreExact(metric, init, m);
      assert forall p :: p in Points(metric, init, m) ==> p.0 in init;
    }
  }

  // ---- the point bound -------------------------------------------------------------------------

  lemma QuotientBound(a: real, b: real, c: real)
    requires b > 0.0 && a / b <= c
    ensures a <= c * b
  {
    assert a == a / b * b;
  }

  lemma QuotientExceeds(a: real, b: real, c: real)
    requires b > 0.0 && a / b > c
    ensures a > c * b
  {
    assert a == a / b * b;
    assert (a / b - c) * b > 0.0;
  }

  lemma CeilingReaches(span: int, parts: int)
    requires parts > 0
    ensures span <= parts * ((span + parts - 1) / parts) <= span + parts - 1
  {
  }

  /** The test on exact numbers, as one on whole ones. */
  lemma TooFine(span: int, step: nat)
    requires step > 0
    ensures span as real / step as real + 1.0 > MAX_POINTS as real <==> span > (MAX_POINTS - 1) * step
  {
    var a, b, c := span as real, step as real, (MAX_POINTS - 1) as real;
    if a / b <= c {
      QuotientBound(a, b, c);
    } else {
      QuotientExceeds(a, b, c);
    }
    assert c * b == ((MAX_POINTS - 1) * step) as real;
  }

  /** An accepted window runs forward, and 1999 of its steps reach across: the step is the one asked for
      when that does, and otherwise the least that does. */
  lemma StepReachesAcross(from: Arg, to: Arg, step: Arg, now: nat)
    ensures var r := MetricsWindow(from, to, step, now);
            var asked := if step.Given? then step.n else DEFAULT_STEP_SEC;
            r.Accept? ==>
              && r.from < r.to && r.step > 0 && r.to - r.from <= (MAX_POINTS - 1) * r.step
              && (r.to - r.from <= (MAX_POINTS - 1) * asked ==> r.step == asked)
              && (r.step != asked ==> (MAX_POINTS - 1) * (r.step - 1) < r.to - r.from)
  {
    var r := MetricsWindow(from, to, step, now);
    if r.Accept? {
      var span := r.to - r.from;
      var s := if step.Given? then step.n else DEFAULT_STEP_SEC;
      CeilingReaches(span, MAX_POINTS - 1);
      TooFine(span, s);
    }
  }

  /** The `n` bucket starts from the one numbered `lo` on. */
  function Starts(lo: int, n: nat, step: int): (ks: set<int>)
    ensures |ks| <= n
    ensures forall j :: lo <= j < lo + n ==> j * step in ks
  {
    if n == 0 then {} else Starts(lo, n - 1, step) + {(lo + n - 1) * step}
  }

  lemma {:induction false} SubsetIsSmaller(a: set<int>, b: set<int>)
    requires a <= b
    ensures |a| <= |b|
  {
    if a != {} {
      assert (forall x :: x !in a) ==> a == {};
      var x :| x in a;
      SubsetIsSmaller(a - {x}, b - {x});
    }
  }

  lemma FloorsInOrder(a: real, b: real, step: int)
    requires a <= b && step > 0
    ensures (a / step as real).Floor <= (b / step as real).Floor
  {
    assert a / step as real <= b / step as real;
  }

  lemma {:induction false} StartsInWindow(xs: seq<Sample>, n: nat, w: Window, since: real)
    requires n <= |xs| && w.step > 0
    ensures var lo, hi := (w.from / w.step as real).Floor, (w.to / w.step as real).Floor;
            Filled(xs, n, w, since) != map[] ==> lo <= hi && Filled(xs, n, w, since).Keys <= Starts(lo, hi - lo + 1, w.step)
  {
    if n > 0 {
      StartsInWindow(xs, n - 1, w, since);
      if InWindow(xs[n - 1], w, since) {
        FloorsInOrder(w.from, xs[n - 1].t, w.step);
        FloorsInOrder(xs[n - 1].t, w.to, w.step);
      }
    }
  }

  /** However the ends are aligned, at most 2000 bucket starts lie in an accepted window. */
  lemma AtMostMaxStarts(from: int, to: int, step: int)
    requires step > 0 && to - from <= (MAX_POINTS - 1) * step
    ensures (to as real / step as real).Floor - (from as real / step as real).Floor + 1 <= MAX_POINTS
  {
    var reach := (MAX_POINTS - 1) as real;
    var s := step as real;
    assert (from as real + reach * s) / s == from as real / s + reach;
    assert to as real <= from as real + reach * s;
    assert to as real / s <= (from as real + reach * s) / s;
  }

  lemma {:induction false} FewStarts(xs: seq<Sample>, from: int, to: int, step: int, since: real)
    requires step > 0 && to - from <= (MAX_POINTS - 1) * step
    ensures |Filled(xs, |xs|, Window(from as real, to as real, step), since).Keys| <= MAX_POINTS
  {
    var w := Window(from as real, to as real, step);
    var m := Filled(xs, |xs|, w, since);
    if m != map[] {
      AtMostMaxStarts(from, to, step);
      StartsInWindow(xs, |xs|, w, since);
      var lo, hi := (w.from / w.step as real).Floor, (w.to / w.step as real).Floor;
      SubsetIsSmaller(m.Keys, Starts(lo, hi - lo + 1, w.step));
    }
  }

  lemma SeriesAreShort(t: Target, keys: seq<int>, m: map<int, Bucket>)
    requires forall k :: k in keys ==> k in m && m[k].samples > 0
    ensures forall s :: s in SeriesOf(t, keys, m) ==> |s.points| <= |keys|
  {
  }

  /** Every window `metricsWindow` accepts, aligned or not, is answered with at most 2000 points in
      every series, whatever the store holds. */
  lemma {:induction false} AtMostMaxPoints(from: Arg, to: Arg, step: Arg, now: nat, h: History, targets: seq<Target>)
    ensures var r := MetricsWindow(from, to, step, now);
            r.Accept? ==>
              forall s :: s in Answer(h, targets, Window(r.from as real, r.to as real, r.step)) ==> |s.points| <= 2000
  {
    var r := MetricsWindow(from, to, step, now);
    if r.Accept? && targets != [] {
      AtMostMaxPoints(from, to, step, now, h, targets[..|targets| - 1]);
      var w := Window(r.from as real, r.to as real, r.step);
      var t := targets[|targets| - 1];
      var xs := Of(h, t.container);
      var m := Filled(xs, |xs|, w, t.since);
      FilledIsPositive(xs, |xs|, w, t.since);
      StepReachesAcross(from, to, step, now);
      FewStarts(xs, r.from, r.to, r.step, t.since);
      SeriesAreShort(t, Sorted(m.Keys), m);
    }
  }

  // ---- saving and loading ----------------------------------------------------------------------

  predicate CleanSample(s: Sample) {
    s.cpu >= 0.0 && s.mem >= 0.0 && s.rx >= 0.0 && s.tx >= 0.0 && IsGeneration(s.generation) && s.running in {0.0, 1.0}
  }

  predicate WellKept(xs: seq<Sample>) {
    xs != [] && Ordered(xs) && forall s :: s in xs ==> CleanSample(s)
  }

  /** What every store has that `record`, `prune` and `load` built up from nothing. */
  predicate WellFormed(h: History) {
    forall name :: name in h ==> WellKept(h[name])
  }

  lemma PushKeepsOrder(xs: seq<Sample>, s: Sample)
    requires xs == [] || (WellKept(xs) && xs[|xs| - 1].t < s.t)
    requires CleanSample(s)
    ensures WellKept(xs + [s])
  {
  }

  lemma {:induction false} RecordedIsWellFormed(h: History, t: real, rows: seq<ContainerSample>)
    requires WellFormed(h)
    ensures WellFormed(Recorded(h, t, rows))
  {
    if rows != [] {
      RecordedIsWellFormed(h, t, rows[..|rows| - 1]);
      var g, r := Recorded(h, t, rows[..|rows| - 1]), rows[|rows| - 1];
      var xs := Of(g, r.name);
      if xs == [] || xs[|xs| - 1].t < t {
        PushKeepsOrder(xs, Stored(t, r));
      }
    }
  }

  lemma PrunedIsWellFormed(h: History, now: real)
    requires WellFormed(h)
    ensures WellFormed(Pruned(h, now))
  {
    forall name | name in Pruned(h, now)
      ensures WellKept(Pruned(h, now)[name])
    {
      var xs := h[name];
      var ys := Fresh(xs, now - RETENTION_SEC);
      assert forall s :: s in ys ==> s in xs;
    }
  }

  lemma {:induction false} KeptIsWellKept(arr: seq<Number>, version: int, n: nat)
    requires Loadable(Rows(arr), version) && n * Width(version) <= |arr|
    ensures n > 0 ==> WellKept(Kept(arr, version, n))
  {
    if n > 0 {
      KeptIsWellKept(arr, version, n - 1);
      var before := Kept(arr, version, n - 1);
      var s := ReadRow(arr, (n - 1) * Width(version), version);
      if before == [] || before[|before| - 1].t < s.t {
        PushKeepsOrder(before, s);
      }
    }
  }

  /** Whatever a saved file holds, what is loaded from it is clean and strictly ascending. */
  lemma LoadedIsWellFormed(raw: SavedFile)
    ensures WellFormed(Loaded(raw))
  {
    if raw.File? && raw.version in {1, 2, 3} {
      forall name | name in Loaded(raw)
        ensures WellKept(Loaded(raw)[name])
      {
        var a := raw.samples[name];
        KeptIsWellKept(a.numbers, raw.version, |a.numbers| / Width(raw.version));
      }
    }
  }

  lemma {:induction false} EncodedRow(xs: seq<Sample>, n: nat)
    requires n < |xs|
    ensures SampleAt(Encode(xs), FIELDS * n) == xs[n]
  {
    var init := xs[..|xs| - 1];
    if n < |xs| - 1 {
      EncodedRow(init, n);
      assert SampleAt(Encode(xs), FIELDS * n) == SampleAt(Encode(init), FIELDS * n);
    }
  }

  lemma ReadBack(xs: seq<Sample>, n: nat)
    requires WellKept(xs) && n < |xs|
    ensures ReadRow(Numbers(Encode(xs)), n * FIELDS, 3) == xs[n]
  {
    EncodedRow(xs, n);
    assert xs[n] in xs && CleanSample(xs[n]);
  }

  lemma {:induction false} EncodedIsKept(xs: seq<Sample>, n: nat)
    requires WellKept(xs) && n <= |xs|
    ensures Loadable(Rows(Numbers(Encode(xs))), 3) && Kept(Numbers(Encode(xs)), 3, n) == xs[..n]
  {
    if n > 0 {
      EncodedIsKept(xs, n - 1);
      ReadBack(xs, n - 1);
      assert xs[..n] == xs[..n - 1] + [xs[n - 1]];
    }
  }

  lemma SavedRowsLoadBack(xs: seq<Sample>)
    requires WellKept(xs)
    ensures var a := Rows(Numbers(Encode(xs))); Loadable(a, 3) && KeptRows(a, 3) == xs
  {
    EncodedIsKept(xs, |xs|);
  }

  /** A saved store loads back as it was. */
  lemma SavedLoadsBack(h: History)
    requires WellFormed(h)
    ensures Loaded(Saved(h)) == h
  {
    var raw := Saved(h);
    forall name | name in h
      ensures name in Loaded(raw) && Loaded(raw)[name] == h[name]
    {
      assert WellKept(h[name]);
      SavedRowsLoadBack(h[name]);
    }
  }

  datatype Step = Record(t: real, rows: seq<ContainerSample>) | Prune(now: real) | Reload(raw: SavedFile, now: real)

  /** The store after a run of operations. */
  function After(run: seq<Step>): History {
    if run == [] then map[]
    else
      var h := After(run[..|run| - 1]);
      match run[|run| - 1]
      case Record(t, rows) => Recorded(h, t, rows)
      case Prune(now) => Pruned(h, now)
      case Reload(raw, now) => Pruned(Loaded(raw), now)
  }

  lemma {:induction false} AlwaysWellFormed(run: seq<Step>)
    ensures WellFormed(After(run))
  {
    if run != [] {
      AlwaysWellFormed(run[..|run| - 1]);
      var h := After(run[..|run| - 1]);
      match run[|run| - 1]
      case Record(t, rows) => RecordedIsWellFormed(h, t, rows);
      case Prune(now) => PrunedIsWellFormed(h, now);
      case Reload(raw, now) =>
        LoadedIsWellFormed(raw);
        PrunedIsWellFormed(Loaded(raw), now);
    }
  }

  /** The round trip: whatever was recorded, pruned and loaded before, saving the store and loading it
      at `now` gives the store pruned at `now`. */
  lemma RoundTrip(run: seq<Step>, now: real)
    ensures Pruned(Loaded(Saved(After(run))), now) == Pruned(After(run), now)
  {
    AlwaysWellFormed(run);
    SavedLoadsBack(After(run));
  }
}

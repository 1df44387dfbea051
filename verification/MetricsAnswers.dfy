/** What the metrics store keeps of a reading and what a series shows, field by field and over the samples
    alone: which number comes from which, and which mean is drawn as what. */
module MetricsAnswers {
  import opened Metrics
  import opened MetricsTheorems

  // ---- what is kept of a reading ---------------------------------------------------------------

  /** A reading that is no finite positive number counts as 0. */
  function Read(n: Number): real {
    if n == NotFinite || n.r <= 0.0 then 0.0 else n.r
  }

  /** `y` is `x` to the nearest of `per` parts of one, and up when it is halfway. */
  ghost predicate Nearest(y: real, x: real, per: real)
  {
    exists k: int :: RoundsTo(y, x, per, k)
  }

  predicate RoundsTo(y: real, x: real, per: real, k: int) {
    y * per == k as real && k as real - 0.5 <= x * per < k as real + 0.5
  }

  /** `s` is what the reading `r` at `t` is kept as. */
  ghost predicate KeptAs(s: Sample, t: real, r: ContainerSample) {
    && s.t == t
    && Nearest(s.cpu, Read(r.cpuCores), 1000000.0) && Nearest(s.mem, Read(r.memBytes), 1.0)
    && Nearest(s.rx, Read(r.rxBytes), 1.0) && Nearest(s.tx, Read(r.txBytes), 1.0)
    && s.running == (if (r.running.Some? && r.running.value) || (r.running.None? && Read(r.memBytes) > 0.0) then 1.0 else 0.0)
    && (r.generation.Some? && r.generation.value.Finite? && IsCount(r.generation.value.r) ==> s.generation == r.generation.value.r)
    && (r.generation.None? || r.generation.value == NotFinite || !IsCount(r.generation.value.r) ==> s.generation == 0.0)
  }

  /** A whole number from 0 to the largest that a double tells from its neighbours. */
  ghost predicate IsCount(x: real) {
    exists k: int :: IsCounted(x, k)
  }

  predicate IsCounted(x: real, k: int) {
    x == k as real && 0 <= k < 0x20_0000_0000_0000
  }

  lemma QuotientTimes(t: real, step: real)
    requires step > 0.0
    ensures t / step * step == t
  {
  }

  lemma Rounds(x: real)
    ensures Nearest(RoundInt(x), x, 1.0) && Nearest(Round3(x), x, 1000.0) && Nearest(Round6(x), x, 1000000.0)
  {
    var i, j, k := (x + 0.5).Floor, (x * 1000.0 + 0.5).Floor, (x * 1000000.0 + 0.5).Floor;
    QuotientTimes(j as real, 1000.0);
    QuotientTimes(k as real, 1000000.0);
    assert RoundsTo(RoundInt(x), x, 1.0, i);
    assert RoundsTo(Round3(x), x, 1000.0, j);
    assert RoundsTo(Round6(x), x, 1000000.0, k);
  }

  lemma CountsAre(x: real)
    ensures IsGeneration(x) <==> IsCount(x)
  {
    if IsGeneration(x) {
      assert IsCounted(x, x.Floor);
    }
  }

  lemma StoredIsKept(t: real, r: ContainerSample)
    ensures KeptAs(Stored(t, r), t, r)
  {
    Rounds(Read(r.cpuCores));
    Rounds(Read(r.memBytes));
    Rounds(Read(r.rxBytes));
    Rounds(Read(r.txBytes));
    if r.generation.Some? && r.generation.value.Finite? {
      CountsAre(r.generation.value.r);
    }
  }

  /** Row number `i` is the first of its name. */
  predicate FirstOf(rows: seq<ContainerSample>, i: nat, name: string) {
    i < |rows| && rows[i].name == name && forall j :: 0 <= j < i ==> rows[j].name != name
  }

  predicate Later(xs: seq<Sample>, t: real) {
    xs == [] || xs[|xs| - 1].t < t
  }

  /** What becomes of one container at a tick: of those that have a name, a row and nothing as late, the first
      of its rows is kept. */
  ghost predicate Ticked(before: seq<Sample>, after: seq<Sample>, t: real, rows: seq<ContainerSample>, name: string) {
    if name != "" && Later(before, t) && exists i: nat :: FirstOf(rows, i, name) then
      && |after| == |before| + 1 && after[..|before|] == before
      && exists i: nat :: FirstOf(rows, i, name) && KeptAs(after[|before|], t, rows[i])
    else after == before
  }

  lemma {:induction false} FirstStays(rows: seq<ContainerSample>, r: ContainerSample, before: seq<Sample>, after: seq<Sample>, t: real, name: string, i: nat)
    requires FirstOf(rows, i, name) && Ticked(before, after, t, rows, name)
    ensures Ticked(before, after, t, rows + [r], name)
  {
    var all := rows + [r];
    assert FirstOf(all, i, name);
    if name != "" && Later(before, t) {
      var k: nat :| FirstOf(rows, k, name) && KeptAs(after[|before|], t, rows[k]);
      assert FirstOf(all, k, name) && all[k] == rows[k];
    }
  }

  lemma {:induction false} FirstComes(rows: seq<ContainerSample>, r: ContainerSample, before: seq<Sample>, t: real, name: string)
    requires forall i: nat :: !FirstOf(rows, i, name)
    ensures var after := if r.name == name && name != "" && Later(before, t) then before + [Stored(t, r)] else before;
            Ticked(before, after, t, rows + [r], name)
  {
    var all := rows + [r];
    StoredIsKept(t, r);
    NoFirst(rows, name);
    assert all[|rows|] == r;
    if r.name == name {
      assert FirstOf(all, |rows|, name);
    }
    assert forall j :: 0 <= j < |rows| ==> all[j].name == rows[j].name;
  }

  /** What one more row does to the container named. */
  lemma {:induction false} OneMoreReading(rows: seq<ContainerSample>, r: ContainerSample, before: seq<Sample>, middle: seq<Sample>, t: real, name: string)
    requires Ticked(before, middle, t, rows, name)
    ensures var after := if r.name == name && name != "" && Later(middle, t) then middle + [Stored(t, r)] else middle;
            Ticked(before, after, t, rows + [r], name)
  {
    if i: nat :| FirstOf(rows, i, name) {
      FirstStays(rows, r, before, middle, t, name, i);
      LateOnce(before, middle, t, rows, name);
    } else {
      FirstComes(rows, r, before, t, name);
    }
  }

  lemma RecordedAt(h: History, t: real, r: ContainerSample, name: string)
    ensures Of(RecordRow(h, t, r), name) ==
            if r.name == name && name != "" && Later(Of(h, name), t) then Of(h, name) + [Stored(t, r)] else Of(h, name)
  {
  }

  /** A tick adds at most one sample to a container: what the first of its rows reads. It changes nothing
      else. */
  lemma {:induction false} ATickIsKept(h: History, t: real, rows: seq<ContainerSample>, name: string)
    ensures Ticked(Of(h, name), Of(Recorded(h, t, rows), name), t, rows, name)
  {
    if rows != [] {
      var init, r := rows[..|rows| - 1], rows[|rows| - 1];
      ATickIsKept(h, t, init, name);
      RecordedAt(Recorded(h, t, init), t, r, name);
      OneMoreReading(init, r, Of(h, name), Of(Recorded(h, t, init), name), t, name);
      assert rows == init + [r];
    }
  }

  /** After its first row, a container has something as late as the tick. */
  lemma LateOnce(before: seq<Sample>, after: seq<Sample>, t: real, rows: seq<ContainerSample>, name: string)
    requires Ticked(before, after, t, rows, name) && exists i: nat :: FirstOf(rows, i, name)
    ensures name == "" || !Later(after, t)
  {
  }

  lemma {:induction false} NoFirst(rows: seq<ContainerSample>, name: string)
    requires forall i: nat :: !FirstOf(rows, i, name)
    ensures forall j :: 0 <= j < |rows| ==> rows[j].name != name
  {
    if rows != [] {
      var n := |rows| - 1;
      forall i: nat ensures !FirstOf(rows[..n], i, name) {
        assert !FirstOf(rows, i, name);
      }
      NoFirst(rows[..n], name);
      assert !FirstOf(rows, n, name);
      forall j | 0 <= j < n ensures rows[j].name != name {
        assert rows[..n][j] == rows[j];
      }
    }
  }

  lemma {:induction false} FreshAre(xs: seq<Sample>, cutoff: real, s: Sample)
    requires Ordered(xs)
    ensures s in Fresh(xs, cutoff) <==> s in xs && s.t >= cutoff
  {
    var d := Stale(xs, cutoff);
    var ys := xs[d..];
    if s in xs && s.t >= cutoff {
      var i :| 0 <= i < |xs| && xs[i] == s;
      assert ys[i - d] == s;
    }
    if s in ys {
      var i :| 0 <= i < |ys| && ys[i] == s;
      assert xs[d + i] == s;
    }
  }

  /** Pruning keeps exactly the samples of the last seven days and an hour. */
  lemma {:induction false} PruningKeepsAWeek(h: History, now: real, name: string, s: Sample)
    requires WellFormed(h)
    ensures s in Of(Pruned(h, now), name) <==> s in Of(h, name) && s.t >= now - 608400.0
  {
    if name in h {
      assert WellKept(h[name]);
      FreshAre(h[name], now - RETENTION_SEC, s);
    }
  }

  // ---- what a series shows ---------------------------------------------------------------------

  /** Sample `m` is in the window, no older than the target, and in the step of the clock numbered `i`. */
  predicate Falls(xs: seq<Sample>, m: nat, w: Window, since: real, i: int)
    requires m < |xs|
  {
    var t := xs[m].t;
    w.from <= t <= w.to && since <= t && (i * w.step) as real <= t < (i * w.step + w.step) as real
  }

  /** Its counters can be set against the sample before: that is no older than the target and at most two
      minutes older, of the same instance in the same state, and neither counter went back. */
  predicate Measured(xs: seq<Sample>, m: nat, since: real)
    requires m < |xs|
  {
    m > 0 &&
    var a, b := xs[m - 1], xs[m];
    since <= a.t < b.t <= a.t + 120.0 && a.generation == b.generation && a.running == b.running && a.rx <= b.rx && a.tx <= b.tx
  }

  /** What a sample brings to the mean of its bucket. */
  function Brings(what: Reading, xs: seq<Sample>, m: nat): real
    requires m < |xs| && (what == Received || what == Sent ==> m > 0 && xs[m - 1].t < xs[m].t)
  {
    match what
    case Cpu => xs[m].cpu
    case Memory => xs[m].mem
    case Received => (xs[m].rx - xs[m - 1].rx) / (xs[m].t - xs[m - 1].t)
    case Sent => (xs[m].tx - xs[m - 1].tx) / (xs[m].t - xs[m - 1].t)
  }

  /** A sample takes part in a mean of levels when it falls into the bucket, and in one of rates when it can
      be measured too. */
  predicate TakesPart(what: Reading, xs: seq<Sample>, m: nat, w: Window, since: real, i: int)
    requires m < |xs|
  {
    Falls(xs, m, w, since, i) && (what == Received || what == Sent ==> Measured(xs, m, since))
  }

  function Many(what: Reading, xs: seq<Sample>, n: nat, w: Window, since: real, i: int): nat
    requires n <= |xs|
  {
    if n == 0 then 0
    else Many(what, xs, n - 1, w, since, i) + if TakesPart(what, xs, n - 1, w, since, i) then 1 else 0
  }

  function Sum(what: Reading, xs: seq<Sample>, n: nat, w: Window, since: real, i: int): real
    requires n <= |xs|
  {
    if n == 0 then 0.0
    else Sum(what, xs, n - 1, w, since, i)
         + if TakesPart(what, xs, n - 1, w, since, i) then Brings(what, xs, n - 1) else 0.0
  }

  lemma TimesOrders(a: real, b: real, c: real)
    requires c > 0.0
    ensures a <= b <==> a * c <= b * c
  {
    assert (b - a) * c == b * c - a * c;
  }

  /** A bucket start is a multiple of the step, and a time's is the one it is not a step beyond. */
  lemma StartOf(t: real, step: int, i: int)
    requires step > 0
    ensures BucketStart(t, step) == i * step <==> (i * step) as real <= t < (i * step + step) as real
  {
    var q, c := t / step as real, step as real;
    var f := q.Floor;
    QuotientTimes(t, c);
    TimesOrders(i as real, q, c);
    TimesOrders((i + 1) as real, q, c);
    assert (i * step) as real == i as real * c;
    assert (i * step + step) as real == (i + 1) as real * c;
    assert i as real <= q < (i + 1) as real <==> f == i;
    if f * step == i * step {
      assert f == i;
    }
  }

  lemma InBucket(xs: seq<Sample>, m: nat, w: Window, since: real, i: int)
    requires m < |xs| && w.step > 0
    ensures Hits(xs, m, w, since, i * w.step) <==> Falls(xs, m, w, since, i)
    ensures Rated(xs, m, since) <==> Measured(xs, m, since)
  {
    StartOf(xs[m].t, w.step, i);
  }

  /** What the bucket of step `i` holds of the samples before `n`. */
  predicate Holds(b: Bucket, xs: seq<Sample>, n: nat, w: Window, since: real, i: int)
    requires n <= |xs|
  {
    && b.samples == Many(Cpu, xs, n, w, since, i) == Many(Memory, xs, n, w, since, i)
    && b.rates == Many(Received, xs, n, w, since, i) == Many(Sent, xs, n, w, since, i)
    && b.cpu == Sum(Cpu, xs, n, w, since, i) && b.mem == Sum(Memory, xs, n, w, since, i)
    && b.rx == Sum(Received, xs, n, w, since, i) && b.tx == Sum(Sent, xs, n, w, since, i)
  }

  lemma HoldsStep(b: Bucket, xs: seq<Sample>, n: nat, w: Window, since: real, i: int)
    requires 0 < n <= |xs| && w.step > 0 && Holds(b, xs, n - 1, w, since, i)
    ensures Holds(if Hits(xs, n - 1, w, since, i * w.step) then Add(b, xs, n - 1, since) else b, xs, n, w, since, i)
  {
    InBucket(xs, n - 1, w, since, i);
  }

  lemma {:induction false} BucketHolds(xs: seq<Sample>, n: nat, w: Window, since: real, i: int)
    requires n <= |xs| && w.step > 0
    ensures Holds(BucketAt(Filled(xs, n, w, since), i * w.step), xs, n, w, since, i)
  {
    if n > 0 {
      BucketHolds(xs, n - 1, w, since, i);
      FilledStep(xs, n, w, since, i * w.step);
      HoldsStep(BucketAt(Filled(xs, n - 1, w, since), i * w.step), xs, n, w, since, i);
    }
  }

  lemma {:induction false} KeysAreStarts(xs: seq<Sample>, n: nat, w: Window, since: real, key: int) returns (i: int)
    requires n <= |xs| && w.step > 0 && key in Filled(xs, n, w, since)
    ensures key == i * w.step
  {
    if BucketStart(xs[n - 1].t, w.step) == key {
      i := (xs[n - 1].t / w.step as real).Floor;
    } else {
      i := KeysAreStarts(xs, n - 1, w, since, key);
    }
  }

  /** `ps` shows one mean for every step of the clock that something takes part in, in order: rounded to the
      nearest of `per` parts of one. */
  ghost predicate ShowsMeans(ps: seq<(int, real)>, what: Reading, per: real, xs: seq<Sample>, w: Window, since: real)
  {
    && (forall a, b :: 0 <= a < b < |ps| ==> ps[a].0 < ps[b].0)
    && (forall p :: p in ps ==> exists i: int :: p.0 == i * w.step && IsMean(p.1, what, per, xs, w, since, i))
    && (forall i: int :: Many(what, xs, |xs|, w, since, i) > 0 ==> exists p :: p in ps && p.0 == i * w.step)
  }

  ghost predicate IsMean(y: real, what: Reading, per: real, xs: seq<Sample>, w: Window, since: real, i: int)
  {
    var n := Many(what, xs, |xs|, w, since, i);
    n > 0 && Nearest(y, Sum(what, xs, |xs|, w, since, i) / n as real, per)
  }

  function PerOne(metric: Metric): real {
    match metric
    case CpuCores => 1000000.0
    case MemoryUsedBytes => 1.0
    case EgressBytesRate => 1000.0
    case IngressBytesRate => 1000.0
  }

  function ReadingOf(metric: Metric): Reading {
    match metric
    case CpuCores => Cpu
    case MemoryUsedBytes => Memory
    case EgressBytesRate => Sent
    case IngressBytesRate => Received
  }

  /** A series is named for what it draws: what leaves a service is what its container sent. */
  ghost predicate Draws(s: Series, metric: Metric, t: Target, xs: seq<Sample>, w: Window) {
    && s.metric == metric && s.group == t.group && s.instance == t.container
    && ShowsMeans(s.points, ReadingOf(metric), PerOne(metric), xs, w, t.since)
  }

  lemma ShownIsMean(metric: Metric, b: Bucket, xs: seq<Sample>, w: Window, since: real, i: int)
    requires Holds(b, xs, |xs|, w, since, i) && b.samples > 0
    ensures Shows(metric, b) <==> Many(ReadingOf(metric), xs, |xs|, w, since, i) > 0
    ensures Shows(metric, b) ==> IsMean(Shown(metric, b), ReadingOf(metric), PerOne(metric), xs, w, since, i)
  {
    if Shows(metric, b) {
      var what := ReadingOf(metric);
      Rounds(Sum(what, xs, |xs|, w, since, i) / Many(what, xs, |xs|, w, since, i) as real);
    }
  }

  lemma {:induction false} FewerAreMeasured(xs: seq<Sample>, n: nat, w: Window, since: real, i: int)
    requires n <= |xs|
    ensures Many(Received, xs, n, w, since, i) == Many(Sent, xs, n, w, since, i) <= Many(Cpu, xs, n, w, since, i) == Many(Memory, xs, n, w, since, i)
  {
    if n > 0 {
      FewerAreMeasured(xs, n - 1, w, since, i);
    }
  }

  lemma {:induction false} PointsShowMeans(metric: Metric, keys: seq<int>, xs: seq<Sample>, w: Window, since: real)
    requires w.step > 0 && Ascending(keys)
    requires var m := Filled(xs, |xs|, w, since); Positive(m) && forall k :: k in keys <==> k in m
    ensures ShowsMeans(Points(metric, keys, Filled(xs, |xs|, w, since)), ReadingOf(metric), PerOne(metric), xs, w, since)
  {
    var m := Filled(xs, |xs|, w, since);
    var ps, what, per := Points(metric, keys, m), ReadingOf(metric), PerOne(metric);
    PointsAreExact(metric, keys, m);
    forall p | p in ps ensures exists i: int :: p.0 == i * w.step && IsMean(p.1, what, per, xs, w, since, i) {
      var i := KeysAreStarts(xs, |xs|, w, since, p.0);
      BucketHolds(xs, |xs|, w, since, i);
      ShownIsMean(metric, m[p.0], xs, w, since, i);
      assert p.0 == i * w.step && IsMean(p.1, what, per, xs, w, since, i);
    }
    forall i: int | Many(what, xs, |xs|, w, since, i) > 0 ensures exists p :: p in ps && p.0 == i * w.step {
      var key := i * w.step;
      BucketHolds(xs, |xs|, w, since, i);
      FewerAreMeasured(xs, |xs|, w, since, i);
      assert key in m;
      ShownIsMean(metric, m[key], xs, w, since, i);
      assert (key, Shown(metric, m[key])) in ps;
    }
  }

  /** Something of `what` is drawn in the window. */
  ghost predicate Anything(what: Reading, xs: seq<Sample>, w: Window, since: real) {
    exists i: int :: Many(what, xs, |xs|, w, since, i) > 0
  }

  lemma {:induction false} AnythingFills(xs: seq<Sample>, w: Window, since: real)
    requires w.step > 0
    ensures Anything(Cpu, xs, w, since) <==> Filled(xs, |xs|, w, since) != map[]
    ensures Anything(Sent, xs, w, since) <==> AnyRates(Filled(xs, |xs|, w, since))
  {
    var m := Filled(xs, |xs|, w, since);
    if m != map[] {
      assert m.Keys != {};
      forall key | key in m ensures exists i: int :: i * w.step == key && Holds(m[key], xs, |xs|, w, since, i) {
        var i := KeysAreStarts(xs, |xs|, w, since, key);
        BucketHolds(xs, |xs|, w, since, i);
      }
      FilledIsPositive(xs, |xs|, w, since);
    }
    forall i: int | Many(Cpu, xs, |xs|, w, since, i) > 0 || Many(Sent, xs, |xs|, w, since, i) > 0
      ensures i * w.step in m && (Many(Sent, xs, |xs|, w, since, i) > 0 ==> m[i * w.step].rates > 0)
    {
      BucketHolds(xs, |xs|, w, since, i);
      FewerAreMeasured(xs, |xs|, w, since, i);
    }
  }

  lemma {:induction false} AnswerOfOne(h: History, t: Target, w: Window)
    requires w.step > 0
    ensures var m := Filled(Of(h, t.container), |Of(h, t.container)|, w, t.since);
            Positive(m) && Answer(h, [t], w) == SeriesOf(t, Sorted(m.Keys), m)
  {
    FilledIsPositive(Of(h, t.container), |Of(h, t.container)|, w, t.since);
    assert [t][..0] == [];
    assert Answer(h, [], w) == [];
  }

  ghost predicate AnswersFor(out: seq<Series>, t: Target, xs: seq<Sample>, w: Window) {
    && |out| == (if !Anything(Cpu, xs, w, t.since) then 0 else if Anything(Sent, xs, w, t.since) then 4 else 2)
    && (|out| > 0 ==> Draws(out[0], CpuCores, t, xs, w) && Draws(out[1], MemoryUsedBytes, t, xs, w))
    && (|out| > 2 ==> Draws(out[2], EgressBytesRate, t, xs, w) && Draws(out[3], IngressBytesRate, t, xs, w))
  }

  lemma {:induction false} DrawsOne(metric: Metric, t: Target, keys: seq<int>, xs: seq<Sample>, w: Window)
    requires w.step > 0 && Ascending(keys)
    requires var m := Filled(xs, |xs|, w, t.since); Positive(m) && forall k :: k in keys <==> k in m
    ensures Draws(Series(metric, t.group, t.container, Points(metric, keys, Filled(xs, |xs|, w, t.since))), metric, t, xs, w)
  {
    PointsShowMeans(metric, keys, xs, w, t.since);
  }

  lemma {:induction false} Assembled(out: seq<Series>, t: Target, xs: seq<Sample>, w: Window, a: Series, b: Series, c: Series, d: Series)
    requires out == if !Anything(Cpu, xs, w, t.since) then [] else [a, b] + if Anything(Sent, xs, w, t.since) then [c, d] else []
    requires Draws(a, CpuCores, t, xs, w) && Draws(b, MemoryUsedBytes, t, xs, w)
    requires Draws(c, EgressBytesRate, t, xs, w) && Draws(d, IngressBytesRate, t, xs, w)
    ensures AnswersFor(out, t, xs, w)
  {
  }

  function SeriesFor(metric: Metric, t: Target, keys: seq<int>, m: map<int, Bucket>): Series
    requires forall k :: k in keys ==> k in m && m[k].samples > 0
  {
    Series(metric, t.group, t.container, Points(metric, keys, m))
  }

  lemma {:induction false} SeriesAre(t: Target, keys: seq<int>, m: map<int, Bucket>)
    requires forall k :: k in keys ==> k in m && m[k].samples > 0
    ensures SeriesOf(t, keys, m) ==
            if m == map[] then []
            else [SeriesFor(CpuCores, t, keys, m), SeriesFor(MemoryUsedBytes, t, keys, m)]
                 + if AnyRates(m) then [SeriesFor(EgressBytesRate, t, keys, m), SeriesFor(IngressBytesRate, t, keys, m)] else []
  {
  }

  lemma {:induction false} SeriesAnswer(t: Target, keys: seq<int>, xs: seq<Sample>, w: Window, m: map<int, Bucket>)
    requires w.step > 0 && Ascending(keys)
    requires m == Filled(xs, |xs|, w, t.since) && Positive(m) && forall k :: k in keys <==> k in m
    ensures AnswersFor(SeriesOf(t, keys, m), t, xs, w)
  {
    AnythingFills(xs, w, t.since);
    SeriesAre(t, keys, m);
    DrawsOne(CpuCores, t, keys, xs, w);
    DrawsOne(MemoryUsedBytes, t, keys, xs, w);
    DrawsOne(EgressBytesRate, t, keys, xs, w);
    DrawsOne(IngressBytesRate, t, keys, xs, w);
    Assembled(SeriesOf(t, keys, m), t, xs, w, SeriesFor(CpuCores, t, keys, m), SeriesFor(MemoryUsedBytes, t, keys, m),
              SeriesFor(EgressBytesRate, t, keys, m), SeriesFor(IngressBytesRate, t, keys, m));
  }

  /** What one target is answered: nothing when none of its samples counts, otherwise its processor and its
      memory, and when anything could be measured what it sent and what it received. */
  lemma {:induction false} WhatATargetIsAnswered(h: History, t: Target, w: Window)
    requires w.step > 0
    ensures AnswersFor(Answer(h, [t], w), t, Of(h, t.container), w)
  {
    var xs := Of(h, t.container);
    AnswerOfOne(h, t, w);
    var m := Filled(xs, |xs|, w, t.since);
    SeriesAnswer(t, Sorted(m.Keys), xs, w, m);
  }

  /** Targets are answered one after the other. */
  lemma {:induction false} TargetsInOrder(h: History, ts: seq<Target>, t: Target, w: Window)
    requires w.step > 0
    ensures Answer(h, ts + [t], w) == Answer(h, ts, w) + Answer(h, [t], w)
  {
    AnswerOfOne(h, t, w);
    assert (ts + [t])[..|ts|] == ts;
  }

  // ---- what is read of a saved file ------------------------------------------------------------

  /** Version 1 has five numbers to a row, version 2 also the instance, version 3 also the state. */
  function RowLength(version: int): nat
    requires 1 <= version <= 3
  {
    if version == 3 then 7 else version + 4
  }

  /** Where row number `i` begins. */
  function RowStart(version: int, i: nat): nat
    requires 1 <= version <= 3
  {
    if i == 0 then 0 else RowStart(version, i - 1) + RowLength(version)
  }

  /** `s` is what row number `i` reads as. */
  ghost predicate ReadAs(s: Sample, arr: seq<Number>, version: int, i: nat)
    requires 1 <= version <= 3
  {
    var at := RowStart(version, i);
    && at + RowLength(version) <= |arr| && arr[at] == Finite(s.t)
    && s.cpu == Read(arr[at + 1]) && s.mem == Read(arr[at + 2]) && s.rx == Read(arr[at + 3]) && s.tx == Read(arr[at + 4])
    && s.generation == (if version > 1 && arr[at + 5].Finite? && IsCount(arr[at + 5].r) then arr[at + 5].r else 0.0)
    && s.running == (if (if version == 3 then arr[at + 6] == Finite(1.0) else Read(arr[at + 2]) > 0.0) then 1.0 else 0.0)
  }

  lemma {:induction false} StartIs(version: int, i: nat)
    requires 1 <= version <= 3
    ensures RowLength(version) == Width(version) && RowStart(version, i) == i * Width(version)
  {
    if i > 0 {
      StartIs(version, i - 1);
    }
  }

  lemma RowReads(arr: seq<Number>, version: int, i: nat, at: nat)
    requires 1 <= version <= 3 && at == RowStart(version, i) && at + RowLength(version) <= |arr| && arr[at].Finite?
    ensures RowLength(version) == Width(version) && ReadAs(ReadRow(arr, at, version), arr, version, i)
  {
    if version > 1 && arr[at + 5].Finite? {
      CountsAre(arr[at + 5].r);
    }
  }

  /** Of the first `n` rows of a saved array each is kept unless one before it is as late, and what is kept is
      in order what those rows read as. */
  ghost predicate RowsKept(xs: seq<Sample>, rows: seq<nat>, arr: seq<Number>, version: int, n: nat)
    requires 1 <= version <= 3
  {
    && |rows| == |xs| && (forall a, b :: 0 <= a < b < |rows| ==> rows[a] < rows[b] && xs[a].t < xs[b].t)
    && (forall k :: 0 <= k < |rows| ==> rows[k] < n && ReadAs(xs[k], arr, version, rows[k]))
    && forall i: nat :: i < n ==> Superseded(xs, rows, arr, version, i)
  }

  /** Row `i` is kept, or one before it that is as late was. */
  ghost predicate Superseded(xs: seq<Sample>, rows: seq<nat>, arr: seq<Number>, version: int, i: nat)
    requires |rows| == |xs| && 1 <= version <= 3
  {
    exists k :: 0 <= k < |rows| && (rows[k] == i || (rows[k] < i && NoLater(arr, RowStart(version, i), xs[k].t)))
  }

  predicate NoLater(arr: seq<Number>, at: nat, t: real) {
    at < |arr| && arr[at].Finite? && arr[at].r <= t
  }

  lemma SupersededStays(xs: seq<Sample>, rows: seq<nat>, s: Sample, n: nat, arr: seq<Number>, version: int, i: nat)
    requires |rows| == |xs| && 1 <= version <= 3 && Superseded(xs, rows, arr, version, i)
    ensures Superseded(xs + [s], rows + [n], arr, version, i)
  {
    var k :| 0 <= k < |rows| && (rows[k] == i || (rows[k] < i && NoLater(arr, RowStart(version, i), xs[k].t)));
    assert (xs + [s])[k] == xs[k] && (rows + [n])[k] == rows[k];
  }

  lemma {:induction false} KeepRow(xs: seq<Sample>, rows: seq<nat>, s: Sample, n: nat, arr: seq<Number>, version: int)
    requires 1 <= version <= 3
    requires RowsKept(xs, rows, arr, version, n) && ReadAs(s, arr, version, n) && (xs == [] || xs[|xs| - 1].t < s.t)
    ensures RowsKept(xs + [s], rows + [n], arr, version, n + 1)
  {
    var ys, more := xs + [s], rows + [n];
    forall i: nat | i < n + 1 ensures Superseded(ys, more, arr, version, i) {
      if i < n {
        SupersededStays(xs, rows, s, n, arr, version, i);
      } else {
        assert more[|rows|] == i;
      }
    }
    forall a, b | 0 <= a < b < |more| ensures more[a] < more[b] && ys[a].t < ys[b].t {
      assert b == |xs| && a < |xs| - 1 ==> xs[a].t < xs[|xs| - 1].t;
    }
  }

  lemma {:induction false} DropRow(xs: seq<Sample>, rows: seq<nat>, n: nat, arr: seq<Number>, version: int)
    requires 1 <= version <= 3 && RowsKept(xs, rows, arr, version, n) && xs != []
    requires NoLater(arr, RowStart(version, n), xs[|xs| - 1].t)
    ensures RowsKept(xs, rows, arr, version, n + 1)
  {
    assert rows[|rows| - 1] < n;
    assert Superseded(xs, rows, arr, version, n);
  }

  /** What the next row leaves: it is kept when it is later than the last one kept. */
  lemma {:induction false} OneMoreRow(xs: seq<Sample>, rows: seq<nat>, arr: seq<Number>, version: int, n: nat, at: nat) returns (more: seq<nat>)
    requires 1 <= version <= 3 && at == RowStart(version, n) && at + RowLength(version) <= |arr| && arr[at].Finite?
    requires RowLength(version) == Width(version) && RowsKept(xs, rows, arr, version, n)
    ensures var s := ReadRow(arr, at, version);
            RowsKept(if xs != [] && xs[|xs| - 1].t >= s.t then xs else xs + [s], more, arr, version, n + 1)
  {
    RowReads(arr, version, n, at);
    var s := ReadRow(arr, at, version);
    if xs != [] && xs[|xs| - 1].t >= s.t {
      DropRow(xs, rows, n, arr, version);
      more := rows;
    } else {
      KeepRow(xs, rows, s, n, arr, version);
      more := rows + [n];
    }
  }

  lemma RowFitsIn(arr: seq<Number>, version: int, n: nat)
    requires n > 0 && 1 <= version <= 3 && Loadable(Rows(arr), version) && RowStart(version, n) <= |arr|
    ensures RowLength(version) == Width(version) && n * Width(version) <= |arr|
    ensures var at := (n - 1) * Width(version);
            at == RowStart(version, n - 1) && at + RowLength(version) <= |arr| && arr[at].Finite?
  {
    StartIs(version, n);
    StartIs(version, n - 1);
    assert arr[RowStart(version, n - 1)] in arr;
  }

  lemma {:induction false} RowsAreKept(arr: seq<Number>, version: int, n: nat) returns (rows: seq<nat>)
    requires 1 <= version <= 3 && Loadable(Rows(arr), version) && RowStart(version, n) <= |arr|
    ensures n * Width(version) <= |arr| && RowsKept(Kept(arr, version, n), rows, arr, version, n)
  {
    if n == 0 {
      rows := [];
    } else {
      RowFitsIn(arr, version, n);
      rows := RowsAreKept(arr, version, n - 1);
      rows := OneMoreRow(Kept(arr, version, n - 1), rows, arr, version, n - 1, (n - 1) * Width(version));
    }
  }

  /** The array saved for a container is one of finite numbers, in `n` whole rows. */
  predicate IsWhole(raw: SavedFile, name: string, n: nat) {
    && raw.File? && 1 <= raw.version <= 3 && name in raw.samples && raw.samples[name].Rows?
    && |raw.samples[name].numbers| == RowStart(raw.version, n)
    && forall x :: x in raw.samples[name].numbers ==> x != NotFinite
  }

  lemma TimesOver(k: nat, n: nat, width: nat)
    requires 5 <= width <= 7 && k * width == n
    ensures n % width == 0 && n / width == k
  {
    if width == 5 {
      assert n == 5 * k;
    } else if width == 6 {
      assert n == 6 * k;
    } else {
      assert n == 7 * k;
    }
  }

  lemma WholeIsLoadable(raw: SavedFile, name: string, n: nat)
    requires IsWhole(raw, name, n)
    ensures raw.version in {1, 2, 3} && name in raw.samples && Loadable(raw.samples[name], raw.version)
    ensures Of(Loaded(raw), name) == KeptRows(raw.samples[name], raw.version)
    ensures |raw.samples[name].numbers| / Width(raw.version) == n
  {
    StartIs(raw.version, n);
    TimesOver(n, |raw.samples[name].numbers|, Width(raw.version));
  }

  /** A container is loaded when what is saved for it is whole, and then of every row there is. */
  lemma {:induction false} WhatIsLoaded(raw: SavedFile, name: string, n: nat)
    requires IsWhole(raw, name, n)
    ensures exists rows :: RowsKept(Of(Loaded(raw), name), rows, raw.samples[name].numbers, raw.version, n)
  {
    WholeIsLoadable(raw, name, n);
    var rows := RowsAreKept(raw.samples[name].numbers, raw.version, n);
  }

  /** Otherwise there is nothing of it. */
  lemma {:induction false} WhatIsNotLoaded(raw: SavedFile, name: string)
    requires forall n: nat :: !IsWhole(raw, name, n)
    ensures Of(Loaded(raw), name) == []
  {
    if raw.File? && raw.version in {1, 2, 3} && name in raw.samples && Loadable(raw.samples[name], raw.version) {
      var n := |raw.samples[name].numbers| / Width(raw.version);
      StartIs(raw.version, n);
      assert IsWhole(raw, name, n);
    }
  }

  // ---- the window a request covers -------------------------------------------------------------

  /** An end that is not given is now, and a beginning that is not given an hour before the end. A request is
      refused when an argument is malformed, the step is zero, or the window does not run forward; otherwise
      the step is the one asked for, a minute by default, unless it is too fine. */
  lemma WindowIsAsAsked(from: Arg, to: Arg, step: Arg, now: nat)
    ensures var r := MetricsWindow(from, to, step, now);
            var end := if to.Given? then to.n else now;
            var begin := if from.Given? then from.n else end - 3600;
            var asked := if step.Given? then step.n else 60;
            if from == Malformed || to == Malformed || step == Malformed || asked == 0 || begin >= end then r == BadRequest
            else && r.Accept? && r.to == end && r.from == begin
                 && (end - begin <= 1999 * asked ==> r.step == asked)
                 && (end - begin > 1999 * asked ==> 1999 * (r.step - 1) < end - begin <= 1999 * r.step)
  {
    StepReachesAcross(from, to, step, now);
    var r := MetricsWindow(from, to, step, now);
    if r.Accept? {
      TooFine(r.to - r.from, if step.Given? then step.n else DEFAULT_STEP_SEC);
    }
  }
}

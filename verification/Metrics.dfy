/** The metrics store of src/metrics-history.ts: one flat array of numbers per container, seven to a
    sample, ascending in time.

    Numbers are exact: stored values are reals, and a reading that is not a finite positive number is
    cleaned to 0 before it is stored, as in the source. */
module Metrics {

  datatype Option<T> = None | Some(value: T)

  const FIELDS := 7
  const RETENTION_SEC := 7.0 * 86400.0 + 3600.0
  const MAX_RATE_GAP_SEC := 120.0
  const MAX_SAFE_INTEGER := 9007199254740991.0

  /** A number as JavaScript hands it over. */
  datatype Number = Finite(r: real) | NotFinite

  function Clean(n: Number): (r: real)
    ensures r >= 0.0
  {
    if n.Finite? && n.r > 0.0 then n.r else 0.0
  }

  predicate IsGeneration(r: real) {
    r >= 0.0 && r == r.Floor as real && r <= MAX_SAFE_INTEGER
  }

  function GenerationValue(n: Option<Number>): (r: real)
    ensures IsGeneration(r)
  {
    if n.Some? && n.value.Finite? && IsGeneration(n.value.r) then n.value.r else 0.0
  }

  function RoundInt(x: real): (r: real)
    ensures x >= 0.0 ==> r >= 0.0
  {
    (x + 0.5).Floor as real
  }

  /** Three digits after the point. */
  function Round3(x: real): real {
    (x * 1000.0 + 0.5).Floor as real / 1000.0
  }

  /** Six digits after the point. */
  function Round6(x: real): (r: real)
    ensures x >= 0.0 ==> r >= 0.0
  {
    (x * 1000000.0 + 0.5).Floor as real / 1000000.0
  }

  function FlagOf(b: bool): real {
    if b then 1.0 else 0.0
  }

  datatype ContainerSample = ContainerSample(name: string, cpuCores: Number, memBytes: Number, rxBytes: Number,
                                             txBytes: Number, generation: Option<Number>, running: Option<bool>)

  /** One sample as the arrays hold it, field by field. */
  datatype Sample = Sample(t: real, cpu: real, mem: real, rx: real, tx: real, generation: real, running: real)

  function Stored(t: real, r: ContainerSample): Sample {
    Sample(t, Round6(Clean(r.cpuCores)), RoundInt(Clean(r.memBytes)), RoundInt(Clean(r.rxBytes)), RoundInt(Clean(r.txBytes)),
           GenerationValue(r.generation), FlagOf(if r.running.Some? then r.running.value else Clean(r.memBytes) > 0.0))
  }

  function Fields(s: Sample): seq<real> {
    [s.t, s.cpu, s.mem, s.rx, s.tx, s.generation, s.running]
  }

  function SampleAt(arr: seq<real>, i: nat): Sample
    requires i + FIELDS <= |arr|
  {
    Sample(arr[i], arr[i + 1], arr[i + 2], arr[i + 3], arr[i + 4], arr[i + 5], arr[i + 6])
  }

  /** The samples of a flat array. */
  function Decode(arr: seq<real>): (xs: seq<Sample>)
    ensures |xs| == |arr| / FIELDS
  {
    seq(|arr| / FIELDS, n requires 0 <= n < |arr| / FIELDS => SampleAt(arr, FIELDS * n))
  }

  lemma DecodePush(arr: seq<real>, s: Sample)
    requires |arr| % FIELDS == 0
    ensures Decode(arr + Fields(s)) == Decode(arr) + [s]
    ensures (|arr| + FIELDS) % FIELDS == 0
  {
    var xs, ys := Decode(arr + Fields(s)), Decode(arr) + [s];
    forall n | 0 <= n < |xs| ensures xs[n] == ys[n] {
      if n < |arr| / FIELDS {
        assert xs[n] == SampleAt(arr + Fields(s), FIELDS * n) == SampleAt(arr, FIELDS * n);
      }
    }
  }

  lemma DecodeDrop(arr: seq<real>, n: nat)
    requires |arr| % FIELDS == 0 && FIELDS * n <= |arr|
    ensures Decode(arr[FIELDS * n..]) == Decode(arr)[n..]
    ensures |arr[FIELDS * n..]| % FIELDS == 0
  {
    var xs, ys := Decode(arr[FIELDS * n..]), Decode(arr)[n..];
    forall m | 0 <= m < |xs| ensures xs[m] == ys[m] {
      assert xs[m] == SampleAt(arr[FIELDS * n..], FIELDS * m) == SampleAt(arr, FIELDS * (n + m));
    }
  }

  // ---- what the operations do ------------------------------------------------------------------

  type History = map<string, seq<Sample>>

  function Of(h: History, name: string): seq<Sample> {
    if name in h then h[name] else []
  }

  function RecordRow(h: History, t: real, r: ContainerSample): History {
    var xs := Of(h, r.name);
    if r.name == "" || (xs != [] && xs[|xs| - 1].t >= t) then h else h[r.name := xs + [Stored(t, r)]]
  }

  function Recorded(h: History, t: real, rows: seq<ContainerSample>): History {
    if rows == [] then h else RecordRow(Recorded(h, t, rows[..|rows| - 1]), t, rows[|rows| - 1])
  }

  /** How many leading samples are older than the cutoff. */
  function Stale(xs: seq<Sample>, cutoff: real): (n: nat)
    ensures n <= |xs|
    ensures forall m :: 0 <= m < n ==> xs[m].t < cutoff
    ensures n < |xs| ==> xs[n].t >= cutoff
  {
    if xs == [] || xs[0].t >= cutoff then 0 else 1 + Stale(xs[1..], cutoff)
  }

  function Fresh(xs: seq<Sample>, cutoff: real): seq<Sample> {
    xs[Stale(xs, cutoff)..]
  }

  function Pruned(h: History, now: real): History {
    map name | name in h && Fresh(h[name], now - RETENTION_SEC) != [] :: Fresh(h[name], now - RETENTION_SEC)
  }

  // ---- queries ---------------------------------------------------------------------------------

  datatype Target = Target(container: string, group: string, since: real)

  datatype Window = Window(from: real, to: real, step: int)

  predicate InWindow(s: Sample, w: Window, since: real) {
    w.from <= s.t <= w.to && s.t >= since
  }

  /** Paused containers keep their counters, so a rate never crosses a state or instance change. */
  predicate Differenceable(prev: Sample, s: Sample) {
    && s.generation == prev.generation && s.running == prev.running
    && 0.0 < s.t - prev.t <= MAX_RATE_GAP_SEC
    && s.rx >= prev.rx && s.tx >= prev.tx
  }

  predicate Rated(xs: seq<Sample>, n: nat, since: real)
    requires n < |xs|
  {
    n > 0 && xs[n - 1].t >= since && Differenceable(xs[n - 1], xs[n])
  }

  datatype Bucket = Bucket(cpu: real, mem: real, samples: nat, rx: real, tx: real, rates: nat)

  const Zero := Bucket(0.0, 0.0, 0, 0.0, 0.0, 0)

  function BucketStart(t: real, step: int): int
    requires step > 0
  {
    (t / step as real).Floor * step
  }

  function Add(b: Bucket, xs: seq<Sample>, n: nat, since: real): Bucket
    requires n < |xs|
  {
    var s := xs[n];
    var c := b.(cpu := b.cpu + s.cpu, mem := b.mem + s.mem, samples := b.samples + 1);
    if !Rated(xs, n, since) then c
    else
      var dt := s.t - xs[n - 1].t;
      c.(rx := c.rx + (s.rx - xs[n - 1].rx) / dt, tx := c.tx + (s.tx - xs[n - 1].tx) / dt, rates := c.rates + 1)
  }

  /** The buckets the first `n` samples fill. */
  function Filled(xs: seq<Sample>, n: nat, w: Window, since: real): map<int, Bucket>
    requires n <= |xs| && w.step > 0
  {
    if n == 0 then map[]
    else
      var m := Filled(xs, n - 1, w, since);
      if !InWindow(xs[n - 1], w, since) then m
      else
        var key := BucketStart(xs[n - 1].t, w.step);
        m[key := Add(if key in m then m[key] else Zero, xs, n - 1, since)]
  }

  datatype Metric = CpuCores | MemoryUsedBytes | EgressBytesRate | IngressBytesRate

  datatype Series = Series(metric: Metric, group: string, instance: string, points: seq<(int, real)>)

  predicate Shows(metric: Metric, b: Bucket) {
    metric.CpuCores? || metric.MemoryUsedBytes? || b.rates > 0
  }

  function Shown(metric: Metric, b: Bucket): real
    requires Shows(metric, b) && b.samples > 0
  {
    match metric
    case CpuCores => Round6(b.cpu / b.samples as real)
    case MemoryUsedBytes => RoundInt(b.mem / b.samples as real)
    case EgressBytesRate => Round3(b.tx / b.rates as real)
    case IngressBytesRate => Round3(b.rx / b.rates as real)
  }

  predicate Ascending(keys: seq<int>) {
    forall i, j :: 0 <= i < j < |keys| ==> keys[i] < keys[j]
  }

  ghost function Least(ks: set<int>): (k: int)
    requires ks != {}
    ensures k in ks && forall x :: x in ks ==> k <= x
  {
    assert (forall x :: x !in ks) ==> ks == {};
    var x :| x in ks;
    if ks == {x} then x
    else
      var y := Least(ks - {x});
      assert forall z :: z in ks ==> z == x || z in ks - {x};
      if x < y then x else y
  }

  ghost function Sorted(ks: set<int>): (keys: seq<int>)
    ensures Ascending(keys) && |keys| == |ks|
    ensures forall k :: k in keys <==> k in ks
  {
    if ks == {} then []
    else
      var k := Least(ks);
      var rest := Sorted(ks - {k});
      assert forall i :: 0 <= i < |rest| ==> rest[i] in rest;
      [k] + rest
  }

  /** The points of one series, over the bucket starts in the order given. */
  function Points(metric: Metric, keys: seq<int>, m: map<int, Bucket>): (ps: seq<(int, real)>)
    requires forall k :: k in keys ==> k in m && m[k].samples > 0
    ensures |ps| <= |keys|
  {
    if keys == [] then []
    else
      var last := keys[|keys| - 1];
      var ps := Points(metric, keys[..|keys| - 1], m);
      if Shows(metric, m[last]) then ps + [(last, Shown(metric, m[last]))] else ps
  }

  predicate AnyRates(m: map<int, Bucket>) {
    exists k :: k in m && m[k].rates > 0
  }

  predicate Positive(m: map<int, Bucket>) {
    forall k :: k in m ==> m[k].samples > 0
  }

  function SeriesOf(t: Target, keys: seq<int>, m: map<int, Bucket>): seq<Series>
    requires forall k :: k in keys ==> k in m && m[k].samples > 0
  {
    if m == map[] then []
    else
      [Series(CpuCores, t.group, t.container, Points(CpuCores, keys, m)),
       Series(MemoryUsedBytes, t.group, t.container, Points(MemoryUsedBytes, keys, m))]
      + if AnyRates(m) then
          [Series(EgressBytesRate, t.group, t.container, Points(EgressBytesRate, keys, m)),
           Series(IngressBytesRate, t.group, t.container, Points(IngressBytesRate, keys, m))]
        else []
  }

  lemma {:induction false} FilledIsPositive(xs: seq<Sample>, n: nat, w: Window, since: real)
    requires n <= |xs| && w.step > 0
    ensures Positive(Filled(xs, n, w, since))
  {
    if n > 0 {
      FilledIsPositive(xs, n - 1, w, since);
    }
  }

  ghost function Answer(h: History, targets: seq<Target>, w: Window): seq<Series>
    requires w.step > 0
  {
    if targets == [] then []
    else
      var t := targets[|targets| - 1];
      var xs := Of(h, t.container);
      var m := Filled(xs, |xs|, w, t.since);
      FilledIsPositive(xs, |xs|, w, t.since);
      Answer(h, targets[..|targets| - 1], w) + SeriesOf(t, Sorted(m.Keys), m)
  }

  // ---- saving and loading ----------------------------------------------------------------------

  /** A saved file as it is parsed: `Rows` is an array whose non-numbers read as NotFinite. */
  datatype SavedArray = NotArray | Rows(numbers: seq<Number>)

  datatype SavedFile = Unreadable | File(version: int, samples: map<string, SavedArray>)

  function Width(version: int): nat {
    if version == 1 then 5 else if version == 2 then 6 else FIELDS
  }

  predicate Loadable(a: SavedArray, version: int) {
    a.Rows? && |a.numbers| % Width(version) == 0 && forall n :: n in a.numbers ==> n.Finite?
  }

  /** One saved row, brought to the current layout. */
  function ReadRow(arr: seq<Number>, i: nat, version: int): Sample
    requires i + Width(version) <= |arr| && arr[i].Finite?
  {
    Sample(arr[i].r, Clean(arr[i + 1]), Clean(arr[i + 2]), Clean(arr[i + 3]), Clean(arr[i + 4]),
           if version == 1 then 0.0 else GenerationValue(Some(arr[i + 5])),
           if Width(version) == FIELDS then FlagOf(arr[i + 6] == Finite(1.0)) else FlagOf(Clean(arr[i + 2]) > 0.0))
  }

  /** What the first `n` saved rows leave: a row that is not later than the last kept one is dropped. */
  function Kept(arr: seq<Number>, version: int, n: nat): (xs: seq<Sample>)
    requires Loadable(Rows(arr), version) && n * Width(version) <= |arr|
    ensures n > 0 ==> xs != []
  {
    if n == 0 then []
    else
      var before := Kept(arr, version, n - 1);
      var s := ReadRow(arr, (n - 1) * Width(version), version);
      if before != [] && before[|before| - 1].t >= s.t then before else before + [s]
  }

  function KeptRows(a: SavedArray, version: int): seq<Sample>
    requires Loadable(a, version)
  {
    Kept(a.numbers, version, |a.numbers| / Width(version))
  }

  function Loaded(raw: SavedFile): History {
    if raw.Unreadable? || raw.version !in {1, 2, 3} then map[]
    else
      map name | name in raw.samples && Loadable(raw.samples[name], raw.version) && KeptRows(raw.samples[name], raw.version) != []
        :: KeptRows(raw.samples[name], raw.version)
  }

  function Numbers(arr: seq<real>): (ns: seq<Number>)
    ensures |ns| == |arr|
  {
    seq(|arr|, n requires 0 <= n < |arr| => Finite(arr[n]))
  }

  function Encode(xs: seq<Sample>): (arr: seq<real>)
    ensures |arr| == FIELDS * |xs|
  {
    if xs == [] then [] else Encode(xs[..|xs| - 1]) + Fields(xs[|xs| - 1])
  }

  function Saved(h: History): SavedFile {
    File(3, map name | name in h :: Rows(Numbers(Encode(h[name]))))
  }

  lemma RowFits(length: nat, width: nat, n: nat)
    requires width > 0 && length % width == 0 && n * width < length
    ensures (n + 1) * width <= length
  {
    var k := length / width;
    assert length == k * width;
    TimesInOrder(k, n, width);
    TimesInOrder(n + 1, k, width);
  }

  lemma TimesInOrder(a: int, b: int, c: nat)
    ensures a <= b ==> a * c <= b * c
  {
  }

  lemma {:induction false} EncodeDecode(arr: seq<real>)
    requires |arr| % FIELDS == 0
    ensures Encode(Decode(arr)) == arr
    decreases |arr|
  {
    if arr != [] {
      var n := |arr| / FIELDS - 1;
      var init := arr[..FIELDS * n];
      assert Decode(arr)[n] == SampleAt(arr, FIELDS * n);
      assert Decode(arr)[..n] == Decode(init) by {
        forall m | 0 <= m < n ensures Decode(arr)[m] == Decode(init)[m] {
          assert SampleAt(arr, FIELDS * m) == SampleAt(init, FIELDS * m);
        }
      }
      EncodeDecode(init);
      assert arr == init + Fields(SampleAt(arr, FIELDS * n));
    }
  }

  ghost function Decoded(samples: map<string, seq<real>>): History {
    map name | name in samples :: Decode(samples[name])
  }

  /** The store with the containers in `done` pruned: each keeps its fresh samples, and goes when it has
      none. */
  function PrunedPart(h: History, done: set<string>, cutoff: real): History {
    map name | name in h && (name in done ==> Fresh(h[name], cutoff) != []) ::
      if name in done then Fresh(h[name], cutoff) else h[name]
  }

  function PrunedName(h: History, name: string, cutoff: real): History
    requires name in h
  {
    if Fresh(h[name], cutoff) == [] then h - {name} else h[name := Fresh(h[name], cutoff)]
  }

  lemma PruneOneMore(h: History, done: set<string>, name: string, cutoff: real)
    requires name in h && name !in done
    ensures name in PrunedPart(h, done, cutoff)
    ensures PrunedName(PrunedPart(h, done, cutoff), name, cutoff) == PrunedPart(h, done + {name}, cutoff)
  {
  }

  lemma PruneEnds(h: History, cutoff: real)
    ensures PrunedPart(h, {}, cutoff) == h
    ensures PrunedPart(h, h.Keys, cutoff) == Pruned(h, cutoff + RETENTION_SEC)
  {
  }

  // ---- the program -----------------------------------------------------------------------------

  class MetricsHistory {
    var samples: map<string, seq<real>>

    predicate Whole()
      reads this
    {
      forall name :: name in samples ==> |samples[name]| % FIELDS == 0
    }

    ghost function View(): History
      reads this
    {
      Decoded(samples)
    }

    constructor ()
      ensures Whole() && View() == map[]
    {
      samples := map[];
    }

    method RecordOne(t: real, r: ContainerSample)
      requires Whole()
      modifies this
      ensures Whole() && View() == RecordRow(old(View()), t, r)
    {
      if r.name == "" {
        return;
      }
      var arr := if r.name in samples then samples[r.name] else [];
      if |arr| >= FIELDS && arr[|arr| - FIELDS] >= t {
        assert Decode(arr)[|arr| / FIELDS - 1] == SampleAt(arr, |arr| - FIELDS);
        return;
      }
      DecodePush(arr, Stored(t, r));
      if |arr| >= FIELDS {
        assert Decode(arr)[|arr| / FIELDS - 1] == SampleAt(arr, |arr| - FIELDS);
      }
      samples := samples[r.name := arr + Fields(Stored(t, r))];
    }

    method Record(t: real, rows: seq<ContainerSample>)
      requires Whole()
      modifies this
      ensures Whole() && View() == Recorded(old(View()), t, rows)
    {
      var n := 0;
      while n < |rows|
        invariant 0 <= n <= |rows|
        invariant Whole() && View() == Recorded(old(View()), t, rows[..n])
      {
        RecordOne(t, rows[n]);
        assert rows[..n + 1][..n] == rows[..n];
        n := n + 1;
      }
      assert rows[..n] == rows;
    }

    method Prune(now: real)
      requires Whole()
      modifies this
      ensures Whole() && View() == Pruned(old(View()), now)
    {
      var cutoff := now - RETENTION_SEC;
      var todo := samples.Keys;
      ghost var h := View();
      PruneEnds(h, cutoff);
      while todo != {}
        invariant todo <= h.Keys && Whole()
        invariant View() == PrunedPart(h, h.Keys - todo, cutoff)
        decreases todo
      {
        var name :| name in todo;
        PruneOneMore(h, h.Keys - todo, name, cutoff);
        assert h.Keys - todo + {name} == h.Keys - (todo - {name});
        PruneOne(name, cutoff);
        todo := todo - {name};
      }
      assert h.Keys - todo == h.Keys;
    }

    /** What the loop of `prune` does to one container. */
    method PruneOne(name: string, cutoff: real)
      requires Whole() && name in View()
      modifies this
      ensures Whole() && View() == PrunedName(old(View()), name, cutoff)
    {
      var arr := samples[name];
      var i := StaleLength(arr, cutoff);
      DecodeDrop(arr, i / FIELDS);
      if i >= |arr| {
        samples := samples - {name};
      } else {
        samples := samples[name := arr[i..]];
      }
    }

    /** The inner loop of `prune`: the length of the stale prefix. */
    static method StaleLength(arr: seq<real>, cutoff: real) returns (i: nat)
      requires |arr| % FIELDS == 0
      ensures i % FIELDS == 0 && i <= |arr| && i == FIELDS * Stale(Decode(arr), cutoff)
    {
      i := 0;
      ghost var n := 0;
      var xs := Decode(arr);
      while i < |arr| && arr[i] < cutoff
        invariant 0 <= n <= |xs| && i == FIELDS * n && i <= |arr|
        invariant n + Stale(xs[n..], cutoff) == Stale(xs, cutoff)
      {
        assert xs[n] == SampleAt(arr, i) && xs[n..][0] == xs[n] && xs[n..][1..] == xs[n + 1..];
        i := i + FIELDS;
        n := n + 1;
      }
      assert n < |xs| ==> xs[n] == SampleAt(arr, FIELDS * n) && xs[n..][0] == xs[n];
    }

    /** The inner loop of `query`: one pass over a container's samples. */
    static method Fill(arr: seq<real>, w: Window, since: real) returns (buckets: map<int, Bucket>)
      requires |arr| % FIELDS == 0 && w.step > 0
      ensures buckets == Filled(Decode(arr), |Decode(arr)|, w, since)
    {
      var xs := Decode(arr);
      var i := 0;
      ghost var n := 0;
      buckets := map[];
      while i < |arr|
        invariant 0 <= n <= |xs| && i == FIELDS * n && i <= |arr|
        invariant buckets == Filled(xs, n, w, since)
      {
        var s := SampleAt(arr, i);
        assert xs[n] == s;
        if w.from <= s.t <= w.to && s.t >= since {
          var key := BucketStart(s.t, w.step);
          var b := if key in buckets then buckets[key] else Zero;
          b := b.(cpu := b.cpu + s.cpu, mem := b.mem + s.mem, samples := b.samples + 1);
          if i >= FIELDS {
            var prev := SampleAt(arr, i - FIELDS);
            assert xs[n - 1] == SampleAt(arr, FIELDS * (n - 1));
            if prev.t >= since && Differenceable(prev, s) {
              var dt := s.t - prev.t;
              b := b.(rx := b.rx + (s.rx - prev.rx) / dt, tx := b.tx + (s.tx - prev.tx) / dt, rates := b.rates + 1);
            }
          }
          buckets := buckets[key := b];
        }
        i := i + FIELDS;
        n := n + 1;
      }
    }

    static method SmallestOf(ks: set<int>) returns (k: int)
      requires ks != {}
      ensures k == Least(ks)
    {
      assert (forall x :: x !in ks) ==> ks == {};
      k :| k in ks;
      var rest := ks - {k};
      while rest != {}
        invariant k in ks && rest <= ks
        invariant forall x :: x in ks && x !in rest ==> k <= x
        decreases rest
      {
        assert (forall x :: x !in rest) ==> rest == {};
        var x :| x in rest;
        k := if x < k then x else k;
        rest := rest - {x};
      }
    }

    /** The ascending sort of the bucket starts. */
    static method SortKeys(ks: set<int>) returns (keys: seq<int>)
      ensures keys == Sorted(ks)
      decreases |ks|
    {
      if ks == {} {
        return [];
      }
      var k := SmallestOf(ks);
      var rest := SortKeys(ks - {k});
      keys := [k] + rest;
    }

    method Query(targets: seq<Target>, w: Window) returns (out: seq<Series>)
      requires Whole() && w.step > 0
      ensures out == Answer(View(), targets, w)
    {
      out := [];
      var n := 0;
      while n < |targets|
        invariant 0 <= n <= |targets|
        invariant out == Answer(View(), targets[..n], w)
      {
        var t := targets[n];
        assert targets[..n + 1][..n] == targets[..n];
        if t.container in samples {
          var m := Fill(samples[t.container], w, t.since);
          FilledIsPositive(Decode(samples[t.container]), |Decode(samples[t.container])|, w, t.since);
          var keys := SortKeys(m.Keys);
          out := out + SeriesOf(t, keys, m);
        }
        n := n + 1;
      }
      assert targets[..n] == targets;
    }

    method ToJson() returns (file: SavedFile)
      requires Whole()
      ensures file == Saved(View())
    {
      file := File(3, map name | name in samples :: Rows(Numbers(samples[name])));
      forall name | name in samples {
        EncodeDecode(samples[name]);
      }
    }

    /** The inner loop of `load`: the rows of one saved array. */
    static method LoadRows(arr: seq<Number>, version: int) returns (kept: seq<real>)
      requires Loadable(Rows(arr), version)
      ensures |kept| % FIELDS == 0 && Decode(kept) == KeptRows(Rows(arr), version)
    {
      kept := [];
      var width := Width(version);
      var i := 0;
      ghost var n := 0;
      while i < |arr|
        invariant 0 <= i <= |arr| && i == n * width && |kept| % FIELDS == 0
        invariant Decode(kept) == Kept(arr, version, n)
      {
        RowFits(|arr|, width, n);
        var s := ReadRow(arr, i, version);
        assert s == ReadRow(arr, (n + 1 - 1) * width, version);
        if |kept| >= FIELDS {
          assert Decode(kept)[|kept| / FIELDS - 1] == SampleAt(kept, |kept| - FIELDS);
        }
        if |kept| < FIELDS || kept[|kept| - FIELDS] < s.t {
          DecodePush(kept, s);
          kept := kept + Fields(s);
        }
        i := i + width;
        n := n + 1;
      }
      assert n == |arr| / width;
    }

    method Load(raw: SavedFile, now: real)
      modifies this
      ensures Whole() && View() == Pruned(Loaded(raw), now)
    {
      samples := map[];
      if raw.Unreadable? || raw.version !in {1, 2, 3} {
        return;
      }
      var todo := raw.samples.Keys;
      while todo != {}
        invariant todo <= raw.samples.Keys && Whole()
        invariant forall name :: name in samples ==> name in raw.samples && name !in todo
        invariant forall name :: name in raw.samples && name !in todo ==>
                    var a := raw.samples[name];
                    && (name in samples <==> Loadable(a, raw.version) && KeptRows(a, raw.version) != [])
                    && (name in samples ==> Decode(samples[name]) == KeptRows(a, raw.version))
        decreases todo
      {
        var name :| name in todo;
        todo := todo - {name};
        var a := raw.samples[name];
        if Loadable(a, raw.version) {
          var kept := LoadRows(a.numbers, raw.version);
          if kept != [] {
            samples := samples[name := kept];
          }
        }
      }
      assert View() == Loaded(raw);
      Prune(now);
    }
  }

  // ---- the window a request covers -------------------------------------------------------------

  const MAX_POINTS := 2000
  const DEFAULT_WINDOW_SEC := 3600
  const DEFAULT_STEP_SEC := 60

  /** A query parameter once its digits are read; anything else is malformed. */
  datatype Arg = Absent | Malformed | Given(n: nat)

  datatype Accepted = BadRequest | Accept(from: int, to: int, step: int)

  /** `metricsWindow`, with the rounding-up division of the source on exact numbers. */
  function MetricsWindow(from: Arg, to: Arg, step: Arg, now: nat): (r: Accepted)
    ensures r.Accept? ==> r.from < r.to && r.step > 0
  {
    if from.Malformed? || to.Malformed? || step.Malformed? || step == Given(0) then BadRequest
    else
      var t := if to.Given? then to.n else now;
      var f := if from.Given? then from.n else t - DEFAULT_WINDOW_SEC;
      var s := if step.Given? then step.n else DEFAULT_STEP_SEC;
      if f >= t then BadRequest
      else if (t - f) as real / s as real + 1.0 > MAX_POINTS as real then
        Accept(f, t, (t - f + MAX_POINTS - 2) / (MAX_POINTS - 1))
      else Accept(f, t, s)
  }
}

/** Estimating the scaling model from the recorded runs of one configuration. */
module HistoryFit {
  import opened Common
  import opened ScalingModel
  import opened AlphaFit
  import GoldenSection

  /** The numeric part of one history record. */
  datatype Entry = Entry(
    nodes: int,
    throughput: real,
    trainingSeconds: real,
    totalWork: real,
    provisioningSeconds: real
  )

  function ThroughputOf(e: Entry): real { e.throughput }

  function TotalWorkOf(e: Entry): real { e.totalWork }

  function ProvisioningOf(e: Entry): real { e.provisioningSeconds }

  // ----- averages

  function Sum(vals: seq<real>): real {
    if vals == [] then 0.0 else Sum(vals[..|vals| - 1]) + vals[|vals| - 1]
  }

  function MapValues(entries: seq<Entry>, fn: Entry -> real): (out: seq<real>)
    ensures |out| == |entries|
    ensures forall i | 0 <= i < |out| :: out[i] == fn(entries[i])
  {
    seq(|entries|, i requires 0 <= i < |entries| => fn(entries[i]))
  }

  function Average(vals: seq<real>): real {
    if vals == [] then 0.0 else Sum(vals) / |vals| as real
  }

  method MapValuesLoop(entries: seq<Entry>, fn: Entry -> real) returns (out: seq<real>)
    ensures out == MapValues(entries, fn)
  {
    out := [];
    for i := 0 to |entries|
      invariant |out| == i && forall k | 0 <= k < i :: out[k] == fn(entries[k])
    {
      out := out + [fn(entries[i])];
    }
  }

  method AverageLoop(vals: seq<real>) returns (avg: real)
    ensures avg == Average(vals)
  {
    if |vals| == 0 {
      return 0.0;
    }
    var sum := 0.0;
    for i := 0 to |vals|
      invariant sum == Sum(vals[..i])
    {
      assert vals[..i + 1][..i] == vals[..i];
      sum := sum + vals[i];
    }
    assert vals[..|vals|] == vals;
    avg := sum / |vals| as real;
  }

  // ----- grouping

  /** The entries recorded at n nodes, in order. */
  function At(h: seq<Entry>, n: int): (r: seq<Entry>)
    ensures forall e | e in r :: e in h && e.nodes == n
    ensures forall e | e in h && e.nodes == n :: e in r
    ensures r == [] <==> n !in NodeCounts(h)
  {
    if h == [] then []
    else
      assert h == h[..|h| - 1] + [h[|h| - 1]];
      var last := h[|h| - 1];
      At(h[..|h| - 1], n) + if last.nodes == n then [last] else []
  }

  function NodeCounts(h: seq<Entry>): set<int> {
    set e | e in h :: e.nodes
  }

  ghost predicate StrictlyAscending(keys: seq<int>) {
    forall i, j | 0 <= i < j < |keys| :: keys[i] < keys[j]
  }

  lemma ConsAscending(k: int, rest: seq<int>)
    requires StrictlyAscending(rest) && forall x | x in rest :: k < x
    ensures StrictlyAscending([k] + rest)
  {
    var keys := [k] + rest;
    forall i, j | 0 <= i < j < |keys|
      ensures keys[i] < keys[j]
    {
      assert keys[j] == rest[j - 1] && rest[j - 1] in rest;
      assert i > 0 ==> keys[i] == rest[i - 1];
    }
  }

  function Insert(keys: seq<int>, k: int): (r: seq<int>)
    requires StrictlyAscending(keys)
    ensures StrictlyAscending(r)
    ensures forall x :: x in r <==> x == k || x in keys
  {
    if keys == [] then [k]
    else if k < keys[0] then
      ConsAscending(k, keys);
      [k] + keys
    else if k == keys[0] then keys
    else
      var rest := Insert(keys[1..], k);
      assert forall x | x in rest :: keys[0] < x;
      ConsAscending(keys[0], rest);
      [keys[0]] + rest
  }

  /** The distinct node counts of a history in ascending order. */
  function Keys(h: seq<Entry>): (keys: seq<int>)
    ensures StrictlyAscending(keys)
    ensures forall n :: n in keys <==> n in NodeCounts(h)
  {
    if h == [] then []
    else
      assert h == h[..|h| - 1] + [h[|h| - 1]];
      Insert(Keys(h[..|h| - 1]), h[|h| - 1].nodes)
  }

  /** Sorting removes the order in which a map hands out its keys: there is only one result. */
  lemma {:induction false} AscendingUnique(xs: seq<int>, ys: seq<int>)
    requires StrictlyAscending(xs) && StrictlyAscending(ys)
    requires forall n :: n in xs <==> n in ys
    ensures xs == ys
  {
    if xs != [] {
      assert xs[0] in xs;
    }
    if ys != [] {
      assert ys[0] in ys;
    }
    if xs != [] {
      assert xs[0] == ys[0];
      forall n
        ensures n in xs[1..] <==> n in ys[1..]
      {
        assert n in xs[1..] <==> n in xs && n != xs[0];
        assert n in ys[1..] <==> n in ys && n != ys[0];
      }
      AscendingUnique(xs[1..], ys[1..]);
    }
  }

  lemma AppendEntry(h: seq<Entry>, e: Entry, n: int)
    ensures At(h + [e], n) == At(h, n) + if e.nodes == n then [e] else []
  {
    assert (h + [e])[..|h|] == h;
  }

  ghost predicate Grouped(m: map<int, seq<Entry>>, entries: seq<Entry>) {
    && m.Keys == NodeCounts(entries)
    && forall n | n in m :: m[n] == At(entries, n)
  }

  lemma GroupedAppend(m: map<int, seq<Entry>>, h: seq<Entry>, e: Entry)
    requires Grouped(m, h)
    ensures Grouped(m[e.nodes := (if e.nodes in m then m[e.nodes] else []) + [e]], h + [e])
  {
    var m' := m[e.nodes := (if e.nodes in m then m[e.nodes] else []) + [e]];
    assert NodeCounts(h + [e]) == NodeCounts(h) + {e.nodes};
    forall n | n in m'
      ensures m'[n] == At(h + [e], n)
    {
      AppendEntry(h, e, n);
      assert n !in m ==> At(h, n) == [];
    }
  }

  method GroupByN(entries: seq<Entry>) returns (m: map<int, seq<Entry>>)
    ensures Grouped(m, entries)
  {
    m := map[];
    for i := 0 to |entries|
      invariant Grouped(m, entries[..i])
    {
      var e := entries[i];
      GroupedAppend(m, entries[..i], e);
      assert entries[..i + 1] == entries[..i] + [e];
      m := m[e.nodes := (if e.nodes in m then m[e.nodes] else []) + [e]];
    }
    assert entries[..|entries|] == entries;
  }

  method SortedKeys(m: map<int, seq<Entry>>) returns (keys: seq<int>)
    ensures StrictlyAscending(keys)
    ensures forall n :: n in keys <==> n in m
  {
    keys := [];
    var left: set<int> := m.Keys;
    while left != {}
      invariant left <= m.Keys
      invariant StrictlyAscending(keys)
      invariant forall n :: n in keys <==> n in m && n !in left
      decreases left
    {
      SomeMember(left);
      var k :| k in left;
      keys := Insert(keys, k);
      left := left - {k};
    }
  }

  // ----- the fitted model

  function AverageAt(h: seq<Entry>, n: int, fn: Entry -> real): real {
    Average(MapValues(At(h, n), fn))
  }

  function PointAt(h: seq<Entry>, n: int): Point {
    Point(n, AverageAt(h, n, ThroughputOf))
  }

  /** The average throughput at each of the given node counts. */
  function PointsAt(h: seq<Entry>, keys: seq<int>): (points: seq<Point>)
    ensures |points| == |keys|
    ensures forall i | 0 <= i < |points| :: points[i].n == keys[i]
  {
    if keys == [] then [] else PointsAt(h, keys[..|keys| - 1]) + [PointAt(h, keys[|keys| - 1])]
  }

  ghost predicate PositiveCounts(h: seq<Entry>) {
    forall e | e in h :: e.nodes >= 1
  }

  lemma PointsAscending(h: seq<Entry>)
    requires PositiveCounts(h)
    ensures Ascending(PointsAt(h, Keys(h)))
  {
    var keys := Keys(h);
    forall i | 0 <= i < |keys|
      ensures keys[i] >= 1
    {
      assert keys[i] in keys;
    }
  }

  /** Histories the estimate is defined on over the reals: the two-point formula does not divide by zero. */
  ghost predicate Usable(h: seq<Entry>) {
    && h != [] && PositiveCounts(h) && Keys(h) != []
    && (|Keys(h)| == 2 ==> AverageAt(h, Keys(h)[0], ThroughputOf) != 0.0)
  }

  lemma {:induction false} PointsFirst(h: seq<Entry>, keys: seq<int>)
    requires keys != []
    ensures PointsAt(h, keys)[0] == PointAt(h, keys[0])
  {
    if |keys| > 1 {
      PointsFirst(h, keys[..|keys| - 1]);
    }
  }

  ghost function EstimatedModel(h: seq<Entry>): (mp: ModelParams)
    requires Usable(h)
    ensures mp.alpha >= 0.0
  {
    var keys := Keys(h);
    var nMin := keys[0];
    PointsAscending(h);
    PointsFirst(h, keys);
    assert nMin in keys;
    var pBaseline := AverageAt(h, nMin, ThroughputOf) / nMin as real;
    ModelParams(
      FittedAlpha(PointsAt(h, keys), pBaseline),
      pBaseline,
      AverageAt(h, nMin, TotalWorkOf),
      Average(MapValues(h, ProvisioningOf)))
  }

  lemma PointsAtStep(h: seq<Entry>, keys: seq<int>, i: nat)
    requires i < |keys|
    ensures PointsAt(h, keys[..i + 1]) == PointsAt(h, keys[..i]) + [PointAt(h, keys[i])]
  {
    assert keys[..i + 1][..i] == keys[..i];
  }

  lemma GroupPoint(m: map<int, seq<Entry>>, h: seq<Entry>, n: int)
    requires Grouped(m, h) && n in m
    ensures Average(MapValues(m[n], ThroughputOf)) == PointAt(h, n).avgP
  {
  }

  method CollectPoints(byN: map<int, seq<Entry>>, ns: seq<int>, ghost h: seq<Entry>) returns (points: seq<Point>)
    requires Grouped(byN, h) && forall i | 0 <= i < |ns| :: ns[i] in byN
    ensures points == PointsAt(h, ns)
  {
    points := [];
    for i := 0 to |ns|
      invariant points == PointsAt(h, ns[..i])
    {
      PointsAtStep(h, ns, i);
      GroupPoint(byN, h, ns[i]);
      var vals := MapValuesLoop(byN[ns[i]], ThroughputOf);
      var avg := AverageLoop(vals);
      points := points + [Point(ns[i], avg)];
    }
    assert ns[..|ns|] == ns;
  }

  /** What one node count adds to the residual of those before it. */
  method SquaredDifference(pBaseline: real, n: int, alpha: real, avgP: real, ghost points: seq<Point>)
    returns (squared: real)
    requires n >= 1 && alpha >= 0.0 && Counts(points)
    ensures Residual(points + [Point(n, avgP)], pBaseline, alpha) == Residual(points, pBaseline, alpha) + squared
  {
    var predicted := pBaseline * n as real * Eta(n, alpha);
    var diff := predicted - avgP;
    squared := diff * diff;
    ResidualAppend(points, Point(n, avgP), pBaseline, alpha, predicted, diff);
  }

  /** The points that the groups give at the listed node counts. */
  ghost predicate Averages(byN: map<int, seq<Entry>>, ns: seq<int>, points: seq<Point>) {
    && |points| == |ns|
    && forall i | 0 <= i < |ns| ::
         ns[i] in byN && points[i] == Point(ns[i], Average(MapValues(byN[ns[i]], ThroughputOf)))
  }

  /** The residual as the program sums it up, averaging anew at every node count. */
  method ResidualLoop(byN: map<int, seq<Entry>>, ns: seq<int>, pBaseline: real, alpha: real, ghost points: seq<Point>)
    returns (total: real)
    requires Averages(byN, ns, points) && Counts(points) && alpha >= 0.0
    ensures total == Residual(points, pBaseline, alpha)
  {
    total := 0.0;
    for i := 0 to |ns|
      invariant total == Residual(points[..i], pBaseline, alpha)
    {
      assert points[i].n == ns[i];
      var vals := MapValuesLoop(byN[ns[i]], ThroughputOf);
      var avgP := AverageLoop(vals);
      var squared := SquaredDifference(pBaseline, ns[i], alpha, avgP, points[..i]);
      assert points[..i + 1] == points[..i] + [Point(ns[i], avgP)];
      total := total + squared;
    }
    assert points[..|ns|] == points;
  }

  lemma {:induction false} PointsAre(h: seq<Entry>, keys: seq<int>)
    ensures forall i | 0 <= i < |keys| :: PointsAt(h, keys)[i] == PointAt(h, keys[i])
  {
    if keys != [] {
      PointsAre(h, keys[..|keys| - 1]);
    }
  }

  /** The points of a grouped history are such points. */
  lemma GroupedAverages(byN: map<int, seq<Entry>>, ns: seq<int>, h: seq<Entry>)
    requires Grouped(byN, h) && forall i | 0 <= i < |ns| :: ns[i] in byN
    ensures Averages(byN, ns, PointsAt(h, ns))
  {
    PointsAre(h, ns);
    forall i | 0 <= i < |ns|
      ensures PointsAt(h, ns)[i] == Point(ns[i], Average(MapValues(byN[ns[i]], ThroughputOf)))
    {
      GroupPoint(byN, h, ns[i]);
    }
  }

  method EstimateAlpha(byN: map<int, seq<Entry>>, ns: seq<int>, pBaseline: real,
                       ghost points: seq<Point>, ghost h: seq<Entry>)
    returns (alpha: real)
    requires Grouped(byN, h) && forall i | 0 <= i < |ns| :: ns[i] in byN
    requires points == PointsAt(h, ns) && Ascending(points) && (|points| == 2 ==> points[0].avgP != 0.0)
    ensures alpha == FittedAlpha(points, pBaseline)
  {
    if |ns| < 2 {
      return 0.0;
    }
    var pts := CollectPoints(byN, ns, h);
    if |ns| == 2 {
      alpha := TwoPointAlpha(pts[0].n, pts[0].avgP, pts[1].n, pts[1].avgP);
    } else {
      ghost var count;
      alpha, count := GoldenSection.Search(ResidualFn(pts, pBaseline), 0.0, 1.0, TOLERANCE);
    }
  }

  method EstimateModel(h: seq<Entry>) returns (mp: ModelParams)
    requires Usable(h)
    ensures mp == EstimatedModel(h)
  {
    var byN := GroupByN(h);
    var ns := SortedKeys(byN);
    AscendingUnique(ns, Keys(h));
    PointsAscending(h);
    PointsFirst(h, ns);
    forall i | 0 <= i < |ns|
      ensures ns[i] in byN
    {
      assert ns[i] in ns;
    }
    var nMin := ns[0];
    var vals := MapValuesLoop(byN[nMin], ThroughputOf);
    var avgPAtNMin := AverageLoop(vals);
    var pBaseline := avgPAtNMin / nMin as real;
    vals := MapValuesLoop(byN[nMin], TotalWorkOf);
    var wAtNMin := AverageLoop(vals);
    vals := MapValuesLoop(h, ProvisioningOf);
    var tProvAvg := AverageLoop(vals);
    var alpha := EstimateAlpha(byN, ns, pBaseline, PointsAt(h, ns), h);
    mp := ModelParams(alpha, pBaseline, wAtNMin, tProvAvg);
  }

  // ----- the estimate does not depend on the order of the records

  lemma SumAppend(xs: seq<real>, v: real)
    ensures Sum(xs + [v]) == Sum(xs) + v
  {
    assert (xs + [v])[..|xs|] == xs;
  }

  lemma {:induction false} SumSplit(xs: seq<real>, i: nat)
    requires i < |xs|
    ensures Sum(xs) == Sum(xs[..i] + xs[i + 1..]) + xs[i]
  {
    var init, v := xs[..|xs| - 1], xs[|xs| - 1];
    if i < |init| {
      var rest := init[..i] + init[i + 1..];
      SumSplit(init, i);
      SumAppend(rest, v);
      assert xs[..i] + xs[i + 1..] == rest + [v];
    } else {
      assert xs[..i] + xs[i + 1..] == init;
    }
  }

  ghost function SumOf(entries: seq<Entry>, fn: Entry -> real): real {
    Sum(MapValues(entries, fn))
  }

  lemma SumOfRemove(ys: seq<Entry>, j: nat, fn: Entry -> real)
    requires j < |ys|
    ensures SumOf(ys, fn) == SumOf(ys[..j] + ys[j + 1..], fn) + fn(ys[j])
  {
    var vals := MapValues(ys, fn);
    SumSplit(vals, j);
    assert MapValues(ys[..j] + ys[j + 1..], fn) == vals[..j] + vals[j + 1..];
  }

  lemma RemoveOne(ys: seq<Entry>, j: nat)
    requires j < |ys|
    ensures multiset(ys[..j] + ys[j + 1..]) == multiset(ys) - multiset{ys[j]}
  {
    assert ys == ys[..j] + [ys[j]] + ys[j + 1..];
  }

  lemma {:induction false} SumPermuted(xs: seq<Entry>, ys: seq<Entry>, fn: Entry -> real)
    requires multiset(xs) == multiset(ys)
    ensures |xs| == |ys| && SumOf(xs, fn) == SumOf(ys, fn)
  {
    assert |xs| == |multiset(xs)| == |multiset(ys)| == |ys|;
    if xs != [] {
      var k := |xs| - 1;
      assert xs[k] in multiset(ys);
      var j :| 0 <= j < |ys| && ys[j] == xs[k];
      RemoveOne(xs, k);
      RemoveOne(ys, j);
      SumOfRemove(xs, k, fn);
      SumOfRemove(ys, j, fn);
      SumPermuted(xs[..k] + xs[k + 1..], ys[..j] + ys[j + 1..], fn);
    }
  }

  lemma {:induction false} AtMultiplicity(h: seq<Entry>, n: int, e: Entry)
    ensures multiset(At(h, n))[e] == if e.nodes == n then multiset(h)[e] else 0
  {
    if h != [] {
      var init, last := h[..|h| - 1], h[|h| - 1];
      AtMultiplicity(init, n, e);
      assert h == init + [last];
      assert multiset(h) == multiset(init) + multiset{last};
      if last.nodes == n {
        assert multiset(At(h, n)) == multiset(At(init, n)) + multiset{last};
      } else {
        assert At(h, n) == At(init, n);
      }
    }
  }

  lemma AveragePermuted(h1: seq<Entry>, h2: seq<Entry>, n: int, fn: Entry -> real)
    requires multiset(h1) == multiset(h2)
    ensures AverageAt(h1, n, fn) == AverageAt(h2, n, fn)
  {
    forall e
      ensures multiset(At(h1, n))[e] == multiset(At(h2, n))[e]
    {
      AtMultiplicity(h1, n, e);
      AtMultiplicity(h2, n, e);
    }
    SumPermuted(At(h1, n), At(h2, n), fn);
  }

  lemma SameEntries(h1: seq<Entry>, h2: seq<Entry>)
    requires multiset(h1) == multiset(h2)
    ensures forall e :: e in h1 <==> e in h2
    ensures Keys(h1) == Keys(h2)
  {
    forall e
      ensures e in h1 <==> e in h2
    {
      assert e in h1 <==> e in multiset(h1);
      assert e in h2 <==> e in multiset(h2);
    }
    assert NodeCounts(h1) == NodeCounts(h2);
    AscendingUnique(Keys(h1), Keys(h2));
  }

  lemma {:induction false} PointsPermuted(h1: seq<Entry>, h2: seq<Entry>, keys: seq<int>)
    requires multiset(h1) == multiset(h2)
    ensures PointsAt(h1, keys) == PointsAt(h2, keys)
  {
    if keys != [] {
      PointsPermuted(h1, h2, keys[..|keys| - 1]);
      AveragePermuted(h1, h2, keys[|keys| - 1], ThroughputOf);
    }
  }

  /** Two histories with the same records, in any order, give the same model. */
  lemma EstimateIgnoresOrder(h1: seq<Entry>, h2: seq<Entry>)
    requires multiset(h1) == multiset(h2) && Usable(h1)
    ensures Usable(h2) && EstimatedModel(h1) == EstimatedModel(h2)
  {
    SameEntries(h1, h2);
    PointsPermuted(h1, h2, Keys(h1));
    AveragePermuted(h1, h2, Keys(h1)[0], ThroughputOf);
    AveragePermuted(h1, h2, Keys(h1)[0], TotalWorkOf);
    SumPermuted(h1, h2, ProvisioningOf);
  }

  // ----- the model at its own reference point

  /** Records as the writer makes them: positive throughput, and work that is time times throughput. */
  ghost predicate Recorded(entries: seq<Entry>) {
    forall i | 0 <= i < |entries| ::
      entries[i].throughput > 0.0 && entries[i].totalWork == entries[i].trainingSeconds * entries[i].throughput
  }

  lemma SumOfLast(entries: seq<Entry>, fn: Entry -> real)
    requires entries != []
    ensures SumOf(entries, fn) == SumOf(entries[..|entries| - 1], fn) + fn(entries[|entries| - 1])
  {
    assert MapValues(entries, fn)[..|entries| - 1] == MapValues(entries[..|entries| - 1], fn);
  }

  /** The recorded times weighted by their throughputs. */
  ghost function WeightedTime(entries: seq<Entry>): real
    requires SumOf(entries, ThroughputOf) != 0.0
  {
    SumOf(entries, TotalWorkOf) / SumOf(entries, ThroughputOf)
  }

  /** The mean work / total lies in [lo, hi], stated without the division. */
  ghost predicate MeanWithin(lo: real, hi: real, total: real, work: real) {
    total >= 0.0 && lo * total <= work <= hi * total
  }

  lemma WeightedStep(lo: real, hi: real, t: real, p: real, total: real, work: real)
    requires p > 0.0 && lo <= t <= hi && MeanWithin(lo, hi, total, work)
    ensures MeanWithin(lo, hi, total + p, work + t * p) && total + p > 0.0
  {
    SignOfProduct(lo - t, p);
    SignOfProduct(t - hi, p);
    assert (lo - t) * p == lo * p - t * p && (t - hi) * p == t * p - hi * p;
  }

  lemma {:induction false} WeightedSums(entries: seq<Entry>, lo: real, hi: real)
    requires Recorded(entries)
    requires forall i | 0 <= i < |entries| :: lo <= entries[i].trainingSeconds <= hi
    ensures entries != [] ==> SumOf(entries, ThroughputOf) > 0.0
    ensures MeanWithin(lo, hi, SumOf(entries, ThroughputOf), SumOf(entries, TotalWorkOf))
  {
    if entries != [] {
      var init, last := entries[..|entries| - 1], entries[|entries| - 1];
      SumOfLast(entries, ThroughputOf);
      SumOfLast(entries, TotalWorkOf);
      WeightedSums(init, lo, hi);
      WeightedStep(lo, hi, last.trainingSeconds, last.throughput, SumOf(init, ThroughputOf), SumOf(init, TotalWorkOf));
    }
  }

  lemma ReferenceRatio(w: real, p: real, k: real, n: real, pBaseline: real, avgW: real, q: real, mean: real)
    requires k > 0.0 && n > 0.0 && p > 0.0
    requires pBaseline == p / k / n && avgW == w / k && mean == w / p
    ensures pBaseline > 0.0
    ensures q * pBaseline == avgW ==> q == mean * n
  {
    var avgP := p / k;
    assert avgP * k == p && avgW * k == w && mean * p == w && pBaseline * n == avgP;
    SignOfProduct(-avgP, k);
    SignOfProduct(-pBaseline, n);
    assert (mean * n) * pBaseline * k == mean * p;
    CancelFactor((mean * n) * pBaseline, avgW, k);
    if q * pBaseline == avgW {
      CancelFactor(q, mean * n, pBaseline);
    }
  }

  /** The predicted time on n nodes is `mean` times 1 + alpha * (n - 1), which is `mean` again in three cases only. */
  ghost predicate Stretches(n: int, mp: ModelParams, mean: real)
    requires n >= 1 && mp.alpha >= 0.0
  {
    && PredT(n, mp) == mean * (1.0 + mp.alpha * (n as real - 1.0))
    && (PredT(n, mp) == mean <==> n == 1 || mp.alpha == 0.0 || mean == 0.0)
  }

  lemma ReferencePrediction(n: int, mp: ModelParams, w: real, p: real, k: real, mean: real)
    requires n >= 1 && k > 0.0 && p > 0.0 && mp.alpha >= 0.0
    requires mp.pBaseline == p / k / n as real && mp.w == w / k && mean == w / p
    ensures Stretches(n, mp, mean)
  {
    ReferenceRatio(w, p, k, n as real, mp.pBaseline, mp.w, mp.w / mp.pBaseline, mean);
    StretchedPrediction(n, mp, mean);
  }

  lemma StretchedPrediction(n: int, mp: ModelParams, mean: real)
    requires n >= 1 && mp.pBaseline > 0.0 && mp.alpha >= 0.0
    requires mp.w / mp.pBaseline == mean * n as real
    ensures Stretches(n, mp, mean)
  {
    NodeSecondsForm(n, mp);
    ReferenceForm(n as real, PredT(n, mp), mean, mp.alpha, TimeShare(mp), TimeFloor(mp), mp.w / mp.pBaseline);
    StretchExact(n as real, mean, mp.alpha);
  }

  /** The weighted mean lies between the shortest and the longest run. */
  lemma WeightedTimeWithinRuns(entries: seq<Entry>, lo: real, hi: real)
    requires Recorded(entries) && entries != []
    requires forall i | 0 <= i < |entries| :: lo <= entries[i].trainingSeconds <= hi
    ensures SumOf(entries, ThroughputOf) > 0.0 && lo <= WeightedTime(entries) <= hi
  {
    WeightedSums(entries, lo, hi);
    MeanBounds(SumOf(entries, TotalWorkOf), SumOf(entries, ThroughputOf), lo, hi);
  }

  lemma ModelSums(h: seq<Entry>)
    requires Usable(h)
    ensures var nMin, mp := Keys(h)[0], EstimatedModel(h);
            var entries := At(h, nMin);
            && nMin >= 1 && entries != []
            && mp.pBaseline == SumOf(entries, ThroughputOf) / |entries| as real / nMin as real
            && mp.w == SumOf(entries, TotalWorkOf) / |entries| as real
  {
    assert Keys(h)[0] in Keys(h);
  }

  /**
   At the smallest recorded node count the model predicts the throughput-weighted mean of
   the recorded times stretched by 1 + alpha * (n - 1), so it reproduces that mean for a
   single node, for alpha = 0, for a mean of zero, and for nothing else.
   */
  lemma ReferenceTime(h: seq<Entry>)
    requires Usable(h) && SumOf(At(h, Keys(h)[0]), ThroughputOf) > 0.0
    ensures Keys(h)[0] >= 1
    ensures Stretches(Keys(h)[0], EstimatedModel(h), WeightedTime(At(h, Keys(h)[0])))
  {
    ModelSums(h);
    var nMin, mp := Keys(h)[0], EstimatedModel(h);
    var entries := At(h, nMin);
    var p, w := SumOf(entries, ThroughputOf), SumOf(entries, TotalWorkOf);
    ReferencePrediction(nMin, mp, w, p, |entries| as real, WeightedTime(entries));
  }

  lemma ReferenceForm(n: real, t: real, mean: real, alpha: real, share: real, floor: real, q: real)
    requires n > 0.0 && SharesOut(n, t, share, floor)
    requires share == q * (1.0 - alpha) && floor == q * alpha && q == mean * n
    ensures t == mean * (1.0 + alpha * (n - 1.0))
  {
    var target := mean * (1.0 + alpha * (n - 1.0));
    assert share + floor * n == q * (1.0 + alpha * (n - 1.0));
    assert target * n == (mean * n) * (1.0 + alpha * (n - 1.0));
    CancelFactor(t, target, n);
  }

  lemma MeanBounds(w: real, p: real, lo: real, hi: real)
    requires p > 0.0 && lo * p <= w <= hi * p
    ensures lo <= w / p <= hi
  {
    var mean := w / p;
    assert mean * p == w;
    SignOfProduct(lo - mean, p);
    SignOfProduct(mean - hi, p);
  }

  lemma StretchExact(n: real, mean: real, alpha: real)
    requires n >= 1.0 && alpha >= 0.0
    ensures mean * (1.0 + alpha * (n - 1.0)) == mean <==> n == 1.0 || alpha == 0.0 || mean == 0.0
  {
    var k := alpha * (n - 1.0);
    assert k == 0.0 <==> n == 1.0 || alpha == 0.0;
    assert mean * (1.0 + k) == mean + mean * k;
    assert mean * k == 0.0 <==> mean == 0.0 || k == 0.0;
  }
}

/** A history for which it matters that the fit adds up squares. */
module ResidualWitness {
  import opened Common
  import opened ScalingModel
  import opened HistoryFit
  import opened Solver
  import opened SolverWitnesses
  import AlphaFit
  import GoldenSection
  import HistoryWriter

  /** One run each on one, two and four nodes. An overhead of 1/3 explains the second, one of 1/9 the third. */
  const UNEVEN := [Entry(1, 100.0, 36000.0, 3600000.0, 60.0), Entry(2, 150.0, 24000.0, 3600000.0, 60.0),
                   Entry(4, 300.0, 12000.0, 3600000.0, 60.0)]

  const UNEVEN_POINTS := [AlphaFit.Point(1, 100.0), AlphaFit.Point(2, 150.0), AlphaFit.Point(4, 300.0)]

  lemma ThreeEntriesAt(e: Entry, f: Entry, g: Entry, n: int)
    requires e.nodes < f.nodes < g.nodes
    ensures At([e, f, g], n)
         == if n == e.nodes then [e] else if n == f.nodes then [f] else if n == g.nodes then [g] else []
  {
    TwoEntriesAt(e, f, n);
    AppendEntry([e, f], g, n);
    assert [e, f, g] == [e, f] + [g];
  }

  lemma ThreeEntriesKeys(e: Entry, f: Entry, g: Entry)
    requires e.nodes < f.nodes < g.nodes
    ensures Keys([e, f, g]) == [e.nodes, f.nodes, g.nodes]
  {
    var h := [e, f, g];
    assert h[0] == e && h[1] == f && h[2] == g;
    assert e.nodes in NodeCounts(h) && f.nodes in NodeCounts(h) && g.nodes in NodeCounts(h);
    AscendingUnique(Keys(h), [e.nodes, f.nodes, g.nodes]);
  }

  /** With one record at each node count the averages are the recorded throughputs. */
  lemma OneRecordPoint(h: seq<Entry>, e: Entry)
    requires At(h, e.nodes) == [e]
    ensures PointAt(h, e.nodes) == AlphaFit.Point(e.nodes, e.throughput)
    ensures AverageAt(h, e.nodes, TotalWorkOf) == e.totalWork
  {
    OneEntryAverage(e, ThroughputOf);
    OneEntryAverage(e, TotalWorkOf);
  }

  lemma ThreePoints(h: seq<Entry>, k: int, l: int, m: int)
    ensures PointsAt(h, [k, l, m]) == [PointAt(h, k), PointAt(h, l), PointAt(h, m)]
  {
    HistoryWriter.TwoPoints(h, [k, l]);
    assert [k, l, m][..2] == [k, l];
  }

  lemma ThreeEntriesPoints(e: Entry, f: Entry, g: Entry)
    requires e.nodes < f.nodes < g.nodes
    ensures var h := [e, f, g];
            && PointAt(h, e.nodes) == AlphaFit.Point(e.nodes, e.throughput)
            && PointAt(h, f.nodes) == AlphaFit.Point(f.nodes, f.throughput)
            && PointAt(h, g.nodes) == AlphaFit.Point(g.nodes, g.throughput)
            && AverageAt(h, e.nodes, TotalWorkOf) == e.totalWork
  {
    ThreeEntriesAt(e, f, g, e.nodes);
    ThreeEntriesAt(e, f, g, f.nodes);
    ThreeEntriesAt(e, f, g, g.nodes);
    OneRecordPoint([e, f, g], e);
    OneRecordPoint([e, f, g], f);
    OneRecordPoint([e, f, g], g);
  }

  lemma ThreeEntriesModel(e: Entry, f: Entry, g: Entry, points: seq<AlphaFit.Point>)
    requires 1 <= e.nodes < f.nodes < g.nodes
    requires points == [AlphaFit.Point(e.nodes, e.throughput), AlphaFit.Point(f.nodes, f.throughput),
                        AlphaFit.Point(g.nodes, g.throughput)]
    ensures Usable([e, f, g]) && AlphaFit.Ascending(points)
    ensures var mp, pBaseline := EstimatedModel([e, f, g]), e.throughput / e.nodes as real;
            mp.alpha == AlphaFit.FittedAlpha(points, pBaseline) && mp.pBaseline == pBaseline && mp.w == e.totalWork
  {
    var h := [e, f, g];
    ThreeEntriesKeys(e, f, g);
    ThreeEntriesPoints(e, f, g);
    ThreePoints(h, e.nodes, f.nodes, g.nodes);
    FittedModel(h, [e.nodes, f.nodes, g.nodes], points, e.throughput);
  }

  lemma FittedModel(h: seq<Entry>, keys: seq<int>, points: seq<AlphaFit.Point>, throughput: real)
    requires h != [] && |keys| >= 3 && Keys(h) == keys && PositiveCounts(h) && keys[0] >= 1
    requires PointsAt(h, keys) == points && AverageAt(h, keys[0], ThroughputOf) == throughput
    ensures Usable(h) && AlphaFit.Ascending(points)
    ensures var mp, pBaseline := EstimatedModel(h), throughput / keys[0] as real;
            && mp.alpha == AlphaFit.FittedAlpha(points, pBaseline) && mp.pBaseline == pBaseline
            && mp.w == AverageAt(h, keys[0], TotalWorkOf)
  {
    PointsAscending(h);
  }

  lemma QuotientRange(p: real, den: real, total: real, lo: real, hi: real)
    requires den > 0.0 && p * den == total && lo * den <= total <= hi * den
    ensures lo <= p <= hi
  {
    SignOfProduct(lo - p, den);
    SignOfProduct(p - hi, den);
  }

  lemma NonNegativeProduct(x: real, y: real)
    requires x >= 0.0 && y >= 0.0
    ensures x * y >= 0.0
  {
    if y > 0.0 {
      SignOfProduct(-x, y);
      assert (-x) * y == -(x * y);
    }
  }

  lemma ProductOrder(a: real, b: real, c: real, d: real)
    requires 0.0 <= a <= c && 0.0 <= b <= d
    ensures a * b <= c * d
  {
    NonNegativeProduct(c - a, d);
    NonNegativeProduct(a, d - b);
    assert c * d - a * b == (c - a) * d + a * (d - b);
  }

  /** d * den == num, and num lies between the multiples lo * den and hi * den. */
  lemma GapRange(d: real, den: real, k: real, gap: real, lo: real, hi: real)
    requires den > 0.0 && gap > 0.0 && d * den == k * gap && lo * den <= k <= hi * den
    ensures lo * gap <= d <= hi * gap
  {
    ProductOrder(gap, 0.0, gap, k - lo * den);
    ProductOrder(gap, 0.0, gap, hi * den - k);
    var low, high := lo * gap, hi * gap;
    assert (low - d) * den == -(gap * (k - lo * den));
    assert (d - high) * den == -(gap * (hi * den - k));
    SignOfProduct(low - d, den);
    SignOfProduct(d - high, den);
  }

  /** By how much the square at two nodes falls between 1/9 and 0.12. */
  lemma FallsAtTwo(x: real, y: real, p: real, q: real)
    requires 1.0 / 9.0 <= x < y <= 0.12 && p * (1.0 + x) == 200.0 && q * (1.0 + y) == 200.0
    ensures (p - 150.0) * (p - 150.0) - (q - 150.0) * (q - 150.0) >= 9063.0 * (y - x)
  {
    QuotientRange(p, 1.0 + x, 200.0, 178.5, 180.0);
    QuotientRange(q, 1.0 + y, 200.0, 178.5, 180.0);
    var gap, d, sum := y - x, p - q, p + q - 300.0;
    assert d * (1.0 + y) == p * gap;
    GapRange(d, 1.0 + y, p, gap, 159.0, 180.0);
    ProductOrder(159.0 * gap, 57.0, d, sum);
    assert d * sum == (p - 150.0) * (p - 150.0) - (q - 150.0) * (q - 150.0);
  }

  /** And by how much the one at four nodes rises: by less. */
  lemma RisesAtFour(x: real, y: real, r: real, s: real)
    requires 1.0 / 9.0 <= x < y <= 0.12 && r * (1.0 + 3.0 * x) == 400.0 && s * (1.0 + 3.0 * y) == 400.0
    ensures (s - 300.0) * (s - 300.0) - (r - 300.0) * (r - 300.0) <= 7965.0 * (y - x)
  {
    QuotientRange(r, 1.0 + 3.0 * x, 400.0, 294.1, 300.0);
    QuotientRange(s, 1.0 + 3.0 * y, 400.0, 294.1, 300.0);
    var gap, d, sum := y - x, r - s, 600.0 - r - s;
    assert d * (1.0 + 3.0 * y) == (3.0 * r) * gap;
    GapRange(d, 1.0 + 3.0 * y, 3.0 * r, gap, 0.0, 675.0);
    ProductOrder(d, sum, 675.0 * gap, 11.8);
    assert d * sum == (s - 300.0) * (s - 300.0) - (r - 300.0) * (r - 300.0);
  }

  lemma UnevenResidual(x: real, p: real, r: real)
    requires x >= 0.0 && p * (1.0 + x) == 200.0 && r * (1.0 + 3.0 * x) == 400.0
    ensures AlphaFit.Counts(UNEVEN_POINTS)
    ensures AlphaFit.Residual(UNEVEN_POINTS, 100.0, x) == (p - 150.0) * (p - 150.0) + (r - 300.0) * (r - 300.0)
  {
    var one, two, four := UNEVEN_POINTS[0], UNEVEN_POINTS[1], UNEVEN_POINTS[2];
    AlphaFit.ResidualOfOne(one, 100.0, x, 100.0);
    AlphaFit.ResidualOfOne(two, 100.0, x, p);
    AlphaFit.ResidualOfOne(four, 100.0, x, r);
    AlphaFit.ResidualConcat([one], [two], 100.0, x);
    AlphaFit.ResidualConcat([one] + [two], [four], 100.0, x);
    assert UNEVEN_POINTS == [one] + [two] + [four];
  }

  /** So the residual still falls where the best fit of four nodes is passed. */
  lemma UnevenFalls(x: real, y: real)
    requires 1.0 / 9.0 <= x < y <= 0.12
    ensures AlphaFit.Counts(UNEVEN_POINTS)
    ensures AlphaFit.Residual(UNEVEN_POINTS, 100.0, x) > AlphaFit.Residual(UNEVEN_POINTS, 100.0, y)
  {
    var p, q, r, s := 200.0 / (1.0 + x), 200.0 / (1.0 + y), 400.0 / (1.0 + 3.0 * x), 400.0 / (1.0 + 3.0 * y);
    assert p * (1.0 + x) == 200.0 && q * (1.0 + y) == 200.0;
    assert r * (1.0 + 3.0 * x) == 400.0 && s * (1.0 + 3.0 * y) == 400.0;
    UnevenResidual(x, p, r);
    UnevenResidual(y, q, s);
    FallsAtTwo(x, y, p, q);
    RisesAtFour(x, y, r, s);
  }

  lemma UnevenFits()
    ensures AlphaFit.Ascending(UNEVEN_POINTS) && AlphaFit.Positive(UNEVEN_POINTS)
    ensures AlphaFit.Encloses(UNEVEN_POINTS, 100.0, 1.0 / 9.0, 1.0 / 3.0)
  {
    BestFitIs(UNEVEN_POINTS[1], 100.0, 1.0 / 3.0);
    BestFitIs(UNEVEN_POINTS[2], 100.0, 1.0 / 9.0);
  }

  lemma BestFitIs(pt: AlphaFit.Point, pBaseline: real, alpha: real)
    requires pt.n >= 2 && pt.avgP > 0.0 && 0.0 <= alpha <= 1.0
    requires (1.0 + alpha * (pt.n - 1) as real) * pt.avgP == pBaseline * pt.n as real
    ensures AlphaFit.BestFit(pt, pBaseline) == alpha
  {
    var raw, m := AlphaFit.RawFit(pt, pBaseline), (pt.n - 1) as real;
    assert (raw - alpha) * m * pt.avgP == 0.0;
    CancelFactor((raw - alpha) * m, 0.0, pt.avgP);
    CancelFactor(raw - alpha, 0.0, m);
  }

  lemma UnevenMeets()
    ensures AlphaFit.Counts(UNEVEN_POINTS)
    ensures GoldenSection.Meets(AlphaFit.ResidualFn(UNEVEN_POINTS, 100.0), 0.0, 1.0, 0.12, 1.0 / 3.0)
  {
    UnevenFits();
    var f := AlphaFit.ResidualFn(UNEVEN_POINTS, 100.0);
    AlphaFit.ResidualShape(UNEVEN_POINTS, 100.0, 1.0 / 9.0, 1.0 / 3.0);
    forall x, y | 0.0 <= x < y <= 1.0 && y <= 0.12
      ensures f(x) > f(y)
    {
      FallsThrough(f, x, y);
    }
  }

  lemma FallsThrough(f: real -> real, x: real, y: real)
    requires f == AlphaFit.ResidualFn(UNEVEN_POINTS, 100.0)
    requires GoldenSection.FallsUpTo(f, 0.0, 1.0, 1.0 / 9.0) && 0.0 <= x < y <= 0.12
    ensures f(x) > f(y)
  {
    var ninth := 1.0 / 9.0;
    if y > ninth {
      UnevenFalls(if x < ninth then ninth else x, y);
      assert x < ninth ==> f(x) > f(ninth);
    }
  }

  lemma UnevenAlpha()
    ensures AlphaFit.Ascending(UNEVEN_POINTS) && AlphaFit.FittedAlpha(UNEVEN_POINTS, 100.0) >= 0.1199995
  {
    UnevenFits();
    UnevenMeets();
    AlphaFit.SearchWithin(UNEVEN_POINTS, 100.0, 0.12, 1.0 / 3.0);
  }

  lemma UnevenModel()
    ensures Usable(UNEVEN)
    ensures var mp := EstimatedModel(UNEVEN);
            mp.alpha >= 0.1199995 && mp.pBaseline == 100.0 && mp.w == 3600000.0
  {
    ThreeEntriesModel(Entry(1, 100.0, 36000.0, 3600000.0, 60.0), Entry(2, 150.0, 24000.0, 3600000.0, 60.0),
                      Entry(4, 300.0, 12000.0, 3600000.0, 60.0), UNEVEN_POINTS);
    UnevenAlpha();
  }

  lemma FourMiss(n: int, mp: ModelParams)
    requires 2 <= n <= 4 && mp.alpha >= 0.1199995 && mp.pBaseline == 100.0 && mp.w == 3600000.0
    ensures PredT(n, mp) > 12100.0
  {
    ThroughputForm(n, mp);
    var p, den := PredP(n, mp), 1.0 + mp.alpha * (n - 1) as real;
    QuotientRange(p, den, 100.0 * n as real, 0.0, 295.0);
    var t := PredT(n, mp);
    assert t * p == 3600000.0;
    SignOfProduct(12100.0 - t, p);
  }

  lemma UnevenPlausible()
    ensures HistoryWriter.Plausible(UNEVEN)
  {
  }

  lemma FiveOrMore(backend: Backend, h: seq<Entry>)
    requires Usable(h) && forall n | 2 <= n <= 4 :: PredT(n, EstimatedModel(h)) > 12100.0
    ensures var r := Solve(2, backend, Objective(Parsed(12100.0), Unset, 8), Some(h), None);
            r.Ok? && r.value.nodes >= 5
  {
    TimeOnlyAnswer(2, backend, Objective(Parsed(12100.0), Unset, 8), h, None);
  }

  /**
   Four nodes did the work in 12000 seconds. The squares let the miss at two nodes outweigh that run:
   for a target of 12100 seconds five nodes or more are scheduled.
   */
  lemma SquaresOutweigh(backend: Backend)
    ensures HistoryWriter.Plausible(UNEVEN) && Usable(UNEVEN)
    ensures UNEVEN[2].nodes == 4 && UNEVEN[2].trainingSeconds == 12000.0
    ensures var r := Solve(2, backend, Objective(Parsed(12100.0), Unset, 8), Some(UNEVEN), None);
            r.Ok? && r.value.nodes >= 5
  {
    UnevenPlausible();
    UnevenModel();
    var mp := EstimatedModel(UNEVEN);
    forall n | 2 <= n <= 4
      ensures PredT(n, mp) > 12100.0
    {
      FourMiss(n, mp);
    }
    FiveOrMore(backend, UNEVEN);
  }
}

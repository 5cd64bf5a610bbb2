/** Fitting the scaling overhead alpha to average throughputs, one per node count. */
module AlphaFit {
  import opened ScalingModel
  import GoldenSection

  /** The average throughput recorded at one node count. */
  datatype Point = Point(n: int, avgP: real)

  predicate Counts(points: seq<Point>) {
    forall i | 0 <= i < |points| :: points[i].n >= 1
  }

  /** Distinct node counts in ascending order, as sortedKeys delivers them. */
  ghost predicate Ascending(points: seq<Point>) {
    && Counts(points)
    && (forall i, j | 0 <= i < j < |points| :: points[i].n < points[j].n)
  }

  ghost predicate Positive(points: seq<Point>) {
    forall i | 0 <= i < |points| :: points[i].avgP > 0.0
  }

  function Square(x: real): real {
    x * x
  }

  /** Predicted throughput of n nodes; PredP with the overhead as the variable. */
  function Predicted(n: int, pBaseline: real, alpha: real): real
    requires n >= 1 && alpha >= 0.0
  {
    pBaseline * n as real * Eta(n, alpha)
  }

  function Residual(points: seq<Point>, pBaseline: real, alpha: real): real
    requires alpha >= 0.0 && Counts(points)
  {
    if points == [] then 0.0
    else
      var last := points[|points| - 1];
      Residual(points[..|points| - 1], pBaseline, alpha) + Square(Predicted(last.n, pBaseline, alpha) - last.avgP)
  }

  /** The closure handed to the search, which evaluates it on [0, 1] only. */
  function ResidualFn(points: seq<Point>, pBaseline: real): real -> real
    requires Counts(points)
  {
    (alpha: real) => if alpha >= 0.0 then Residual(points, pBaseline, alpha) else 0.0
  }

  function TwoPointAlpha(n1: int, avgP1: real, n2: int, avgP2: real): (alpha: real)
    requires 1 <= n1 < n2 && avgP1 != 0.0
    ensures alpha >= 0.0
  {
    var eta2Obs := (avgP2 / n2 as real) / (avgP1 / n1 as real);
    if eta2Obs <= 0.0 then 0.0
    else
      assert eta2Obs * (n2 - 1) as real > 0.0;
      var alpha := (1.0 - eta2Obs) / (eta2Obs * (n2 - 1) as real);
      if alpha < 0.0 then 0.0 else alpha
  }

  const TOLERANCE: real := 0.000001

  function FittedAlpha(points: seq<Point>, pBaseline: real): (alpha: real)
    requires Ascending(points) && (|points| == 2 ==> points[0].avgP != 0.0)
    ensures alpha >= 0.0
  {
    if |points| < 2 then 0.0
    else if |points| == 2 then TwoPointAlpha(points[0].n, points[0].avgP, points[1].n, points[1].avgP)
    else GoldenSection.Minimizer(ResidualFn(points, pBaseline), 0.0, 1.0, TOLERANCE)
  }

  // ----- two node counts

  lemma PredictedForm(n: int, pBaseline: real, alpha: real)
    requires n >= 1 && alpha >= 0.0
    ensures Predicted(n, pBaseline, alpha) * (1.0 + alpha * (n - 1) as real) == pBaseline * n as real
  {
    ThroughputForm(n, ModelParams(alpha, pBaseline, 0.0, 0.0));
  }

  /**
   With two node counts the fit reproduces the larger one, capped at linear scaling; it
   underestimates the smaller one unless that is a single node or the fit is alpha = 0;
   and it stays within the range alpha <= 1 exactly when n2 nodes beat one node's share.
   */
  lemma TwoPointFit(n1: int, avgP1: real, n2: int, avgP2: real)
    requires 1 <= n1 < n2 && avgP1 > 0.0 && avgP2 > 0.0
    ensures var pBaseline := avgP1 / n1 as real;
            var alpha := TwoPointAlpha(n1, avgP1, n2, avgP2);
            && Predicted(n2, pBaseline, alpha)
               == (if avgP2 <= pBaseline * n2 as real then avgP2 else pBaseline * n2 as real)
            && Predicted(n1, pBaseline, alpha) <= avgP1
            && (Predicted(n1, pBaseline, alpha) == avgP1 <==> n1 == 1 || alpha == 0.0)
            && (alpha <= 1.0 <==> avgP2 >= pBaseline)
  {
    var b, x1, x2 := avgP1 / n1 as real, n1 as real, n2 as real;
    assert b > 0.0 && b * x1 == avgP1;
    var e := avgP2 / x2 / b;
    EfficiencyForm(avgP2, x2, b, e);
    var alpha := TwoPointAlpha(n1, avgP1, n2, avgP2);
    TwoPointAlphaForm(n1, avgP1, n2, avgP2, e);
    TwoPointUpper(n2, b, alpha, e, avgP2);
    TwoPointLower(n1, b, alpha, avgP1);
    TwoPointRange(x2, b, alpha, e, avgP2);
  }

  lemma EfficiencyForm(avgP2: real, x2: real, b: real, e: real)
    requires avgP2 > 0.0 && x2 > 0.0 && b > 0.0 && e == avgP2 / x2 / b
    ensures e > 0.0
    ensures e * b * x2 == avgP2
    ensures e <= 1.0 <==> avgP2 <= b * x2
  {
    var r := avgP2 / x2;
    assert r * x2 == avgP2 && e * b == r;
    assert r > 0.0;
    SignOfProduct(-e, b);
    assert b * x2 > 0.0;
    SignOfProduct(e - 1.0, b * x2);
    assert (e - 1.0) * (b * x2) == avgP2 - b * x2;
  }

  lemma TwoPointAlphaForm(n1: int, avgP1: real, n2: int, avgP2: real, e: real)
    requires 1 <= n1 < n2 && avgP1 > 0.0 && avgP2 > 0.0
    requires e == (avgP2 / n2 as real) / (avgP1 / n1 as real) && e > 0.0
    ensures var alpha := TwoPointAlpha(n1, avgP1, n2, avgP2);
            if e <= 1.0 then alpha * (e * (n2 - 1) as real) == 1.0 - e else alpha == 0.0
  {
    var em := e * (n2 - 1) as real;
    assert em > 0.0;
    var raw := (1.0 - e) / em;
    assert raw * em == 1.0 - e;
    SignOfProduct(raw, em);
  }

  lemma TwoPointRange(x2: real, b: real, alpha: real, e: real, avgP2: real)
    requires x2 >= 2.0 && b > 0.0 && e > 0.0 && alpha >= 0.0 && e * b * x2 == avgP2
    requires if e <= 1.0 then alpha * (e * (x2 - 1.0)) == 1.0 - e else alpha == 0.0
    ensures alpha <= 1.0 <==> avgP2 >= b
  {
    var em, ex := e * (x2 - 1.0), e * x2;
    assert em > 0.0 && ex == em + e;
    assert ex * b == avgP2;
    assert (1.0 - ex) * b == b - avgP2;
    SignOfProduct(1.0 - ex, b);
    if e <= 1.0 {
      assert (alpha - 1.0) * em == 1.0 - ex;
      SignOfProduct(alpha - 1.0, em);
    }
  }

  lemma TwoPointUpper(n2: int, b: real, alpha: real, e: real, avgP2: real)
    requires n2 >= 2 && b > 0.0 && e > 0.0 && alpha >= 0.0
    requires e * b * n2 as real == avgP2
    requires if e <= 1.0 then alpha * (e * (n2 - 1) as real) == 1.0 - e else alpha == 0.0
    ensures Predicted(n2, b, alpha) == (if e <= 1.0 then avgP2 else b * n2 as real)
  {
    PredictedForm(n2, b, alpha);
    var den, p, bn := 1.0 + alpha * (n2 - 1) as real, Predicted(n2, b, alpha), b * n2 as real;
    if e <= 1.0 {
      assert e * den == e + alpha * (e * (n2 - 1) as real);
      assert e * den == 1.0;
      assert p * (e * den) == e * (p * den);
      assert p == e * bn;
    }
  }

  lemma TwoPointLower(n1: int, b: real, alpha: real, avgP1: real)
    requires n1 >= 1 && alpha >= 0.0 && b * n1 as real == avgP1 > 0.0
    ensures Predicted(n1, b, alpha) <= avgP1
    ensures Predicted(n1, b, alpha) == avgP1 <==> n1 == 1 || alpha == 0.0
  {
    PredictedForm(n1, b, alpha);
    var p, k := Predicted(n1, b, alpha), alpha * (n1 - 1) as real;
    assert k >= 0.0 && (k == 0.0 <==> n1 == 1 || alpha == 0.0);
    assert p * (1.0 + k) == avgP1;
    assert p + p * k == avgP1;
    SignOfProduct(-p, 1.0 + k);
    assert p > 0.0;
    assert p * k >= 0.0 && (p * k == 0.0 <==> k == 0.0);
  }

  /** A larger count that achieves nothing, or less, is taken for one without overhead. */
  lemma TwoPointIdle(n1: int, avgP1: real, n2: int, avgP2: real)
    requires 1 <= n1 < n2 && avgP1 > 0.0 && avgP2 <= 0.0
    ensures TwoPointAlpha(n1, avgP1, n2, avgP2) == 0.0
  {
    var share, b := avgP2 / n2 as real, avgP1 / n1 as real;
    assert share * n2 as real == avgP2 && b * n1 as real == avgP1;
    SignOfProduct(share, n2 as real);
    SignOfProduct(-b, n1 as real);
    var e := share / b;
    assert e * b == share;
    SignOfProduct(e, b);
  }

  // ----- three or more node counts

  /** The overhead at which the prediction for one node count equals its measurement. */
  function RawFit(pt: Point, pBaseline: real): (raw: real)
    requires pt.n >= 2 && pt.avgP > 0.0
    ensures (1.0 + raw * (pt.n - 1) as real) * pt.avgP == pBaseline * pt.n as real
  {
    var ratio, m := pBaseline * pt.n as real / pt.avgP, (pt.n - 1) as real;
    var raw := (ratio - 1.0) / m;
    assert ratio * pt.avgP == pBaseline * pt.n as real && raw * m == ratio - 1.0;
    raw
  }

  /** The overhead in [0, 1] that best explains one node count on its own. */
  function BestFit(pt: Point, pBaseline: real): (alpha: real)
    requires pt.n >= 2 && pt.avgP > 0.0
    ensures 0.0 <= alpha <= 1.0
  {
    var raw := RawFit(pt, pBaseline);
    if raw < 0.0 then 0.0 else if raw > 1.0 then 1.0 else raw
  }

  /** Comparing alpha with the unclamped best fit compares the prediction with the measurement. */
  lemma RawFitCompares(pt: Point, pBaseline: real, alpha: real)
    requires pt.n >= 2 && pt.avgP > 0.0 && pBaseline > 0.0 && alpha >= 0.0
    ensures var raw := RawFit(pt, pBaseline);
            && (alpha <= raw <==> Predicted(pt.n, pBaseline, alpha) >= pt.avgP)
            && (alpha >= raw <==> Predicted(pt.n, pBaseline, alpha) <= pt.avgP)
  {
    PredictedForm(pt.n, pBaseline, alpha);
    var m := (pt.n - 1) as real;
    FitSign(Predicted(pt.n, pBaseline, alpha), 1.0 + alpha * m, pt.avgP, alpha, RawFit(pt, pBaseline), m);
  }

  lemma FitSign(p: real, den: real, g: real, alpha: real, raw: real, m: real)
    requires m > 0.0 && g > 0.0 && den >= 1.0
    requires den == 1.0 + alpha * m && p * den == (1.0 + raw * m) * g
    ensures alpha <= raw <==> p >= g
    ensures alpha >= raw <==> p <= g
  {
    var d := alpha - raw;
    assert (p - g) * den == -((d * m) * g);
    SignOfProduct(d, m);
    SignOfProduct(-d, m);
    SignOfProduct(d * m, g);
    SignOfProduct(-(d * m), g);
    SignOfProduct(p - g, den);
    SignOfProduct(g - p, den);
  }

  lemma PredictedDecreases(n: int, pBaseline: real, x: real, y: real)
    requires n >= 2 && pBaseline > 0.0 && 0.0 <= x < y
    ensures 0.0 < Predicted(n, pBaseline, y) < Predicted(n, pBaseline, x)
  {
    PredictedForm(n, pBaseline, x);
    PredictedForm(n, pBaseline, y);
    var m, bn := (n - 1) as real, pBaseline * n as real;
    var px, py, dx, dy := Predicted(n, pBaseline, x), Predicted(n, pBaseline, y), 1.0 + x * m, 1.0 + y * m;
    assert dx < dy by {
      assert (y - x) * m > 0.0;
    }
    assert bn > 0.0;
    SmallerDenominator(px, py, dx, dy, bn);
  }

  lemma SmallerDenominator(px: real, py: real, dx: real, dy: real, bn: real)
    requires 1.0 <= dx < dy && bn > 0.0 && px * dx == bn && py * dy == bn
    ensures 0.0 < py < px
  {
    SignOfProduct(-py, dy);
    assert py > 0.0;
    assert (px - py) * dx == py * (dy - dx) > 0.0;
    SignOfProduct(py - px, dx);
  }

  lemma SquareOrder(small: real, large: real)
    requires 0.0 <= small < large
    ensures Square(small) < Square(large) && Square(-small) < Square(-large)
  {
    var gap, sum := large - small, large + small;
    assert gap * sum > 0.0;
    assert gap * sum == large * large - small * small;
  }

  /** One squared residual falls strictly before its own best fit and rises strictly after it. */
  lemma TermOrder(pt: Point, pBaseline: real, x: real, y: real)
    requires pt.n >= 2 && pt.avgP > 0.0 && pBaseline > 0.0 && 0.0 <= x < y <= 1.0
    ensures var f := a requires a >= 0.0 => Square(Predicted(pt.n, pBaseline, a) - pt.avgP);
            && (y <= BestFit(pt, pBaseline) ==> f(x) > f(y))
            && (BestFit(pt, pBaseline) <= x ==> f(x) < f(y))
  {
    PredictedDecreases(pt.n, pBaseline, x, y);
    RawFitCompares(pt, pBaseline, x);
    RawFitCompares(pt, pBaseline, y);
    var dx, dy := Predicted(pt.n, pBaseline, x) - pt.avgP, Predicted(pt.n, pBaseline, y) - pt.avgP;
    if y <= BestFit(pt, pBaseline) {
      assert 0.0 <= dy < dx;
      SquareOrder(dy, dx);
    }
    if BestFit(pt, pBaseline) <= x {
      assert dy < dx <= 0.0;
      SquareOrder(-dx, -dy);
    }
  }

  lemma SingleNodeTerm(pBaseline: real, x: real)
    requires x >= 0.0
    ensures Predicted(1, pBaseline, x) == pBaseline
  {
  }

  /** One node count contributes the square of the difference between prediction p and average. */
  lemma ResidualOfOne(pt: Point, pBaseline: real, alpha: real, p: real)
    requires pt.n >= 1 && alpha >= 0.0
    requires p * (1.0 + alpha * (pt.n - 1) as real) == pBaseline * pt.n as real
    ensures Residual([pt], pBaseline, alpha) == (p - pt.avgP) * (p - pt.avgP)
  {
    var den := 1.0 + alpha * (pt.n - 1) as real;
    PredictedForm(pt.n, pBaseline, alpha);
    CancelFactor(p, Predicted(pt.n, pBaseline, alpha), den);
    assert [pt][..0] == [];
  }

  /** The residual is a sum over the node counts. */
  lemma {:induction false} ResidualConcat(xs: seq<Point>, ys: seq<Point>, pBaseline: real, alpha: real)
    requires Counts(xs) && Counts(ys) && alpha >= 0.0
    ensures Residual(xs + ys, pBaseline, alpha) == Residual(xs, pBaseline, alpha) + Residual(ys, pBaseline, alpha)
  {
    if ys == [] {
      assert xs + ys == xs;
    } else {
      var init := ys[..|ys| - 1];
      ResidualConcat(xs, init, pBaseline, alpha);
      assert (xs + ys)[..|xs + ys| - 1] == xs + init;
    }
  }

  /** One step of the program's sum. */
  lemma ResidualAppend(points: seq<Point>, pt: Point, pBaseline: real, alpha: real, p: real, diff: real)
    requires Counts(points) && pt.n >= 1 && alpha >= 0.0
    requires p == pBaseline * pt.n as real * Eta(pt.n, alpha) && diff == p - pt.avgP
    ensures Residual(points + [pt], pBaseline, alpha) == Residual(points, pBaseline, alpha) + diff * diff
  {
    assert (points + [pt])[..|points|] == points;
    assert diff == Predicted(pt.n, pBaseline, alpha) - pt.avgP;
  }

  /** lo and hi enclose every single-count best fit. */
  ghost predicate Encloses(points: seq<Point>, pBaseline: real, lo: real, hi: real)
    requires Positive(points)
  {
    forall i | 0 <= i < |points| && points[i].n >= 2 :: lo <= BestFit(points[i], pBaseline) <= hi
  }

  lemma {:induction false} ResidualOrder(points: seq<Point>, pBaseline: real, x: real, y: real, lo: real, hi: real)
    requires Counts(points) && Positive(points) && pBaseline > 0.0
    requires Encloses(points, pBaseline, lo, hi) && 0.0 <= x < y <= 1.0
    ensures y <= lo ==> Residual(points, pBaseline, y) <= Residual(points, pBaseline, x)
    ensures hi <= x ==> Residual(points, pBaseline, x) <= Residual(points, pBaseline, y)
    ensures y <= lo && (exists i | 0 <= i < |points| :: points[i].n >= 2) ==>
              Residual(points, pBaseline, y) < Residual(points, pBaseline, x)
    ensures hi <= x && (exists i | 0 <= i < |points| :: points[i].n >= 2) ==>
              Residual(points, pBaseline, x) < Residual(points, pBaseline, y)
  {
    if points != [] {
      var init, last := points[..|points| - 1], points[|points| - 1];
      assert Encloses(init, pBaseline, lo, hi);
      ResidualOrder(init, pBaseline, x, y, lo, hi);
      if last.n >= 2 {
        TermOrder(last, pBaseline, x, y);
      } else {
        SingleNodeTerm(pBaseline, x);
        SingleNodeTerm(pBaseline, y);
        if i :| 0 <= i < |points| && points[i].n >= 2 {
          assert init[i].n >= 2;
        }
      }
    }
  }

  /** The residual sum strictly falls before the best fits and strictly rises after them. */
  lemma ResidualShape(points: seq<Point>, pBaseline: real, lo: real, hi: real)
    requires Ascending(points) && Positive(points) && |points| >= 2 && pBaseline > 0.0
    requires Encloses(points, pBaseline, lo, hi)
    ensures var f := ResidualFn(points, pBaseline);
            GoldenSection.Meets(f, 0.0, 1.0, lo, hi)
  {
    var f := ResidualFn(points, pBaseline);
    assert 1 <= points[0].n < points[1].n;
    assert lo <= BestFit(points[1], pBaseline) <= hi;
    forall x, y | 0.0 <= x < y <= 1.0
      ensures y <= lo ==> f(x) > f(y)
      ensures hi <= x ==> f(x) < f(y)
    {
      ResidualOrder(points, pBaseline, x, y, lo, hi);
    }
  }

  /**
   The searched alpha lies within half the tolerance of any interval that encloses the
   best fits of the single node counts.
   */
  lemma SearchNearBestFits(points: seq<Point>, pBaseline: real, lo: real, hi: real)
    requires Ascending(points) && Positive(points) && |points| >= 3 && pBaseline > 0.0
    requires Encloses(points, pBaseline, lo, hi)
    ensures lo - 0.0000005 <= FittedAlpha(points, pBaseline) <= hi + 0.0000005
  {
    ResidualShape(points, pBaseline, lo, hi);
    SearchWithin(points, pBaseline, lo, hi);
  }

  /** The same for any interval that the residual leads to. */
  lemma SearchWithin(points: seq<Point>, pBaseline: real, lo: real, hi: real)
    requires Ascending(points) && |points| >= 3
    requires GoldenSection.Meets(ResidualFn(points, pBaseline), 0.0, 1.0, lo, hi)
    ensures lo - 0.0000005 <= FittedAlpha(points, pBaseline) <= hi + 0.0000005
  {
    SearchMeets(ResidualFn(points, pBaseline), lo, hi);
    assert FittedAlpha(points, pBaseline)
        == GoldenSection.Minimizer(ResidualFn(points, pBaseline), 0.0, 1.0, TOLERANCE);
  }

  lemma SearchMeets(f: real -> real, lo: real, hi: real)
    requires GoldenSection.Meets(f, 0.0, 1.0, lo, hi)
    ensures lo - 0.0000005 <= GoldenSection.Minimizer(f, 0.0, 1.0, TOLERANCE) <= hi + 0.0000005
  {
    GoldenSection.MinimizerNear(f, 0.0, 1.0, TOLERANCE, lo, hi);
  }

  /** An overhead in [0, 1] that explains every average exactly is recovered to half the tolerance. */
  lemma ExactModelRecovered(points: seq<Point>, pBaseline: real, alpha: real)
    requires Ascending(points) && Positive(points) && |points| >= 3 && pBaseline > 0.0
    requires 0.0 <= alpha <= 1.0
    requires forall i | 0 <= i < |points| :: Predicted(points[i].n, pBaseline, alpha) == points[i].avgP
    ensures alpha - 0.0000005 <= FittedAlpha(points, pBaseline) <= alpha + 0.0000005
  {
    forall i | 0 <= i < |points| && points[i].n >= 2
      ensures BestFit(points[i], pBaseline) == alpha
    {
      RawFitCompares(points[i], pBaseline, alpha);
      assert RawFit(points[i], pBaseline) == alpha;
    }
    SearchNearBestFits(points, pBaseline, alpha, alpha);
  }

  /** With three or more node counts the fit is strictly between 0 and 1, whatever was measured. */
  lemma SearchedAlphaInside(points: seq<Point>, pBaseline: real)
    requires Ascending(points) && |points| >= 3
    ensures 0.0 < FittedAlpha(points, pBaseline) < 1.0
  {
  }

  function SearchSteps(): nat {
    GoldenSection.Steps(1.0, TOLERANCE)
  }

  /** The search evaluates a fixed number of brackets, whatever was measured. */
  lemma SearchTakesTwentyNineSteps()
    ensures SearchSteps() == 29
  {
    GoldenSection.UnitIntervalSteps();
  }
}

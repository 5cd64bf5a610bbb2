/**
 The scaling model of the topology solver: predicted throughput, time and cost of a
 run on n nodes. Floating-point numbers are modelled as reals.
 */
module ScalingModel {

  datatype ModelParams = ModelParams(
    alpha: real,      // scaling overhead
    pBaseline: real,  // throughput of one node
    w: real,          // total work
    tProvAvg: real    // average provisioning time in seconds
  )

  function Pow2(k: nat): (r: real)
    ensures r > 0.0
  {
    if k == 0 then 1.0 else 2.0 * Pow2(k - 1)
  }

  /** The largest finite float64, which stands for "never finishes". */
  function MaxFloat64(): (r: real)
    ensures r > 0.0
  {
    9007199254740991.0 * Pow2(971)
  }

  lemma {:induction false} Pow2Add(i: nat, j: nat)
    ensures Pow2(i + j) == Pow2(i) * Pow2(j)
  {
    if i > 0 {
      Pow2Add(i - 1, j);
    }
  }

  /** One step of the last binade, 2^971, below 2^1024. */
  lemma LargestFloat(step: nat, bits: nat)
    requires step == 971 && bits == 53
    ensures MaxFloat64() + Pow2(step) == Pow2(bits + step)
  {
    Pow2Add(bits, step);
    SmallPowers();
  }

  lemma SmallPowers()
    ensures Pow2(53) == 9007199254740992.0
  {
    Pow2Add(8, 8);
    Pow2Add(16, 16);
    Pow2Add(32, 16);
    Pow2Add(48, 5);
    assert Pow2(8) == 256.0 && Pow2(5) == 32.0;
  }

  function Eta(n: int, alpha: real): real
    requires n >= 1 && alpha >= 0.0
  {
    EtaDenominatorPositive(n, alpha);
    1.0 / (1.0 + alpha * (n - 1) as real)
  }

  lemma EtaDenominatorPositive(n: int, alpha: real)
    requires n >= 1 && alpha >= 0.0
    ensures 1.0 + alpha * (n - 1) as real >= 1.0
  {
  }

  function PredP(n: int, mp: ModelParams): real
    requires n >= 1 && mp.alpha >= 0.0
  {
    mp.pBaseline * n as real * Eta(n, mp.alpha)
  }

  function PredT(n: int, mp: ModelParams): real
    requires n >= 1 && mp.alpha >= 0.0
  {
    var p := PredP(n, mp);
    if p <= 0.0 then MaxFloat64() else mp.w / p
  }

  function PredCost(n: int, mp: ModelParams, ch: real): real
    requires n >= 1 && mp.alpha >= 0.0
  {
    var trainingCost := ch * n as real * PredT(n, mp) / 3600.0;
    var provisioningCost := ch * n as real * mp.tProvAvg / 3600.0;
    trainingCost + provisioningCost
  }

  function Abs(x: real): real {
    if x < 0.0 then -x else x
  }

  predicate IsFlatCost(mp: ModelParams, ch: real, maxNodes: int)
    requires maxNodes >= 1 && mp.alpha >= 0.0
  {
    var c2 := PredCost(2, mp, ch);
    c2 == 0.0 || Abs(PredCost(maxNodes, mp, ch) - c2) / c2 < 0.01
  }

  // ----- closed forms

  lemma ThroughputForm(n: int, mp: ModelParams)
    requires n >= 1 && mp.alpha >= 0.0
    ensures PredP(n, mp) * (1.0 + mp.alpha * (n - 1) as real) == mp.pBaseline * n as real
    ensures PredP(n, mp) <= 0.0 <==> mp.pBaseline <= 0.0
  {
    var den := 1.0 + mp.alpha * (n - 1) as real;
    EtaDenominatorPositive(n, mp.alpha);
    var e := Eta(n, mp.alpha);
    assert e * den == 1.0;
    assert e > 0.0;
    var pn := mp.pBaseline * n as real;
    assert PredP(n, mp) == pn * e;
    assert (pn * e) * den == pn * (e * den);
    SignOfProduct(mp.pBaseline, n as real);
    SignOfProduct(pn, e);
  }

  lemma SignOfProduct(x: real, y: real)
    requires y > 0.0
    ensures x * y <= 0.0 <==> x <= 0.0
    ensures x * y < 0.0 <==> x < 0.0
  {
    if x > 0.0 {
      assert x * y > 0.0;
    } else if x < 0.0 {
      assert (-x) * y > 0.0;
    }
  }

  /** The part of the node-seconds n * T(n) that is shared out among the nodes. */
  function TimeShare(mp: ModelParams): real
    requires mp.pBaseline > 0.0
  {
    mp.w / mp.pBaseline * (1.0 - mp.alpha)
  }

  /** The part of T(n) that no node count removes. */
  function TimeFloor(mp: ModelParams): real
    requires mp.pBaseline > 0.0
  {
    mp.w / mp.pBaseline * mp.alpha
  }

  /** t == floor + share / x, stated without the division. */
  ghost predicate SharesOut(x: real, t: real, share: real, floor: real) {
    x * t == share + floor * x
  }

  /** T(n) = TimeFloor + TimeShare / n. */
  lemma NodeSecondsForm(n: int, mp: ModelParams)
    requires n >= 1 && mp.alpha >= 0.0 && mp.pBaseline > 0.0
    ensures SharesOut(n as real, PredT(n, mp), TimeShare(mp), TimeFloor(mp))
  {
    ThroughputForm(n, mp);
    var p, t, den, k, b := PredP(n, mp), PredT(n, mp), 1.0 + mp.alpha * (n - 1) as real, n as real, mp.pBaseline;
    assert t * p == mp.w;
    assert p * den == b * k;
    var q := mp.w / b;
    assert q * b == mp.w;
    assert (k * t) * (b * p) == (b * k) * (t * p) == (p * den) * (q * b);
    assert (q * den) * (b * p) == (p * den) * (q * b);
    CancelFactor(k * t, q * den, b * p);
    assert q * den == q * (1.0 - mp.alpha) + q * mp.alpha * k;
  }

  lemma CancelFactor(x: real, y: real, z: real)
    requires z > 0.0 || z < 0.0
    requires x * z == y * z
    ensures x == y
  {
    assert (x - y) * z == 0.0;
  }

  // ----- how time changes with the node count

  lemma CrossDifference(x: real, y: real, tx: real, ty: real, c: real, s: real)
    requires SharesOut(x, tx, c, s) && SharesOut(y, ty, c, s)
    ensures (tx - ty) * (x * y) == c * (y - x)
  {
    assert tx * (x * y) == (x * tx) * y == c * y + s * x * y;
    assert ty * (x * y) == (y * ty) * x == c * x + s * x * y;
  }

  lemma TimeShareSign(mp: ModelParams)
    requires mp.pBaseline > 0.0
    ensures TimeShare(mp) >= 0.0 <==> mp.w * (1.0 - mp.alpha) >= 0.0
    ensures TimeShare(mp) > 0.0 <==> mp.w * (1.0 - mp.alpha) > 0.0
  {
    var c, b := TimeShare(mp), mp.pBaseline;
    var q := mp.w / b;
    assert q * b == mp.w;
    assert c * b == mp.w * (1.0 - mp.alpha);
    SignOfProduct(c, b);
    SignOfProduct(-c, b);
  }

  lemma TimeOrderByShare(i: int, j: int, mp: ModelParams)
    requires 1 <= i < j && mp.alpha >= 0.0 && mp.pBaseline > 0.0
    ensures PredT(j, mp) <= PredT(i, mp) <==> TimeShare(mp) >= 0.0
    ensures PredT(j, mp) < PredT(i, mp) <==> TimeShare(mp) > 0.0
  {
    NodeSecondsForm(i, mp);
    NodeSecondsForm(j, mp);
    OrderFromCross(i as real, j as real, PredT(i, mp), PredT(j, mp), TimeShare(mp), TimeFloor(mp));
  }

  /** The sign of the change is that of w * (1 - alpha), whatever the two counts are. */
  lemma TimeOrder(i: int, j: int, mp: ModelParams)
    requires 1 <= i < j && mp.alpha >= 0.0 && mp.pBaseline > 0.0
    ensures PredT(j, mp) <= PredT(i, mp) <==> mp.w * (1.0 - mp.alpha) >= 0.0
    ensures PredT(j, mp) < PredT(i, mp) <==> mp.w * (1.0 - mp.alpha) > 0.0
  {
    TimeOrderByShare(i, j, mp);
    TimeShareSign(mp);
  }

  lemma OrderFromCross(x: real, y: real, tx: real, ty: real, c: real, s: real)
    requires 0.0 < x < y
    requires SharesOut(x, tx, c, s) && SharesOut(y, ty, c, s)
    ensures ty <= tx <==> c >= 0.0
    ensures ty < tx <==> c > 0.0
  {
    CrossDifference(x, y, tx, ty, c, s);
    var d, e, xy, gap := ty - tx, -c, x * y, y - x;
    assert xy > 0.0;
    assert d * xy == e * gap;
    SignOfProduct(d, xy);
    SignOfProduct(e, gap);
  }

  ghost predicate TimeNonIncreasing(mp: ModelParams, maxNodes: int)
    requires mp.alpha >= 0.0
  {
    forall i, j {:trigger PredT(i, mp), PredT(j, mp)} | 2 <= i <= j <= maxNodes :: PredT(j, mp) <= PredT(i, mp)
  }

  /** T never increases with n exactly when the fitted overhead is at most 1. */
  lemma TimeNonIncreasingIff(mp: ModelParams, maxNodes: int)
    requires mp.alpha >= 0.0 && mp.pBaseline > 0.0 && mp.w > 0.0 && maxNodes > 2
    ensures TimeNonIncreasing(mp, maxNodes) <==> mp.alpha <= 1.0
  {
    SignOfProduct(1.0 - mp.alpha, mp.w);
    assert mp.w * (1.0 - mp.alpha) == (1.0 - mp.alpha) * mp.w;
    if mp.alpha <= 1.0 {
      forall i, j | 2 <= i <= j <= maxNodes
        ensures PredT(j, mp) <= PredT(i, mp)
      {
        if i < j {
          TimeOrder(i, j, mp);
        }
      }
    } else {
      TimeOrder(2, maxNodes, mp);
      assert PredT(2, mp) < PredT(maxNodes, mp);
    }
  }

  /** For alpha strictly below 1 every extra node shortens the run. */
  lemma TimeStrictlyDecreasing(i: int, j: int, mp: ModelParams)
    requires 1 <= i < j && 0.0 <= mp.alpha < 1.0 && mp.pBaseline > 0.0 && mp.w > 0.0
    ensures PredT(j, mp) < PredT(i, mp)
  {
    TimeOrder(i, j, mp);
    assert mp.w * (1.0 - mp.alpha) > 0.0;
  }

  /** Whatever the parameters, T runs in one direction over all node counts. */
  lemma TimeOneDirection(i: int, j: int, k: int, l: int, mp: ModelParams)
    requires 1 <= i <= j && 1 <= k <= l && mp.alpha >= 0.0
    ensures PredT(i, mp) < PredT(j, mp) ==> PredT(k, mp) <= PredT(l, mp)
    ensures PredT(i, mp) > PredT(j, mp) ==> PredT(k, mp) >= PredT(l, mp)
  {
    if mp.pBaseline > 0.0 {
      if i < j {
        TimeOrder(i, j, mp);
      }
      if k < l {
        TimeOrder(k, l, mp);
      }
    } else {
      ThroughputForm(i, mp);
      ThroughputForm(j, mp);
    }
  }

  // ----- how cost changes with the node count

  /** What one more node adds to the cost; the same at every node count. */
  function CostSlope(mp: ModelParams, ch: real): real {
    if mp.pBaseline > 0.0
    then ch * (TimeFloor(mp) + mp.tProvAvg) / 3600.0
    else ch * (MaxFloat64() + mp.tProvAvg) / 3600.0
  }

  lemma CostAffine(i: int, j: int, mp: ModelParams, ch: real)
    requires i >= 1 && j >= 1 && mp.alpha >= 0.0
    ensures PredCost(j, mp, ch) - PredCost(i, mp, ch) == CostSlope(mp, ch) * (j - i) as real
  {
    CostForm(i, mp, ch);
    CostForm(j, mp, ch);
    var s := CostSlope(mp, ch);
    assert s * i as real - s * j as real == s * (i - j) as real;
  }

  function CostBase(mp: ModelParams, ch: real): real {
    if mp.pBaseline > 0.0 then ch * TimeShare(mp) / 3600.0 else 0.0
  }

  lemma CostForm(n: int, mp: ModelParams, ch: real)
    requires n >= 1 && mp.alpha >= 0.0
    ensures PredCost(n, mp, ch) == CostBase(mp, ch) + CostSlope(mp, ch) * n as real
  {
    var k, t, prov := n as real, PredT(n, mp), mp.tProvAvg;
    if mp.pBaseline > 0.0 {
      NodeSecondsForm(n, mp);
      var c, s := TimeShare(mp), TimeFloor(mp);
      assert ch * k * t == ch * (k * t) == ch * c + ch * s * k;
      assert ch * (s + prov) * k == ch * s * k + ch * k * prov;
    } else {
      ThroughputForm(n, mp);
      assert t == MaxFloat64();
      assert ch * (t + prov) * k == ch * k * t + ch * k * prov;
    }
  }

  /** The sign conditions under which cost cannot fall as nodes are added. */
  predicate CostGrows(mp: ModelParams, ch: real) {
    mp.alpha >= 0.0 && mp.w >= 0.0 && mp.tProvAvg >= 0.0 && ch >= 0.0
  }

  lemma CostSlopeNonNegative(mp: ModelParams, ch: real)
    requires CostGrows(mp, ch)
    ensures CostSlope(mp, ch) >= 0.0
  {
    if mp.pBaseline > 0.0 {
      var q := mp.w / mp.pBaseline;
      assert q >= 0.0;
      assert q * mp.alpha >= 0.0;
      assert ch * (q * mp.alpha + mp.tProvAvg) >= 0.0;
    } else {
      assert ch * (MaxFloat64() + mp.tProvAvg) >= 0.0;
    }
  }

  lemma CostNonDecreasing(i: int, j: int, mp: ModelParams, ch: real)
    requires CostGrows(mp, ch) && 1 <= i <= j
    ensures PredCost(i, mp, ch) <= PredCost(j, mp, ch)
  {
    CostSlopeNonNegative(mp, ch);
    CostAffine(i, j, mp, ch);
    assert CostSlope(mp, ch) * (j - i) as real >= 0.0;
  }

  lemma PositiveSum(x: real, y: real, ch: real, slope: real)
    requires x >= 0.0 && y >= 0.0 && ch >= 0.0 && slope == ch * (x + y) / 3600.0
    ensures slope > 0.0 <==> ch > 0.0 && (x > 0.0 || y > 0.0)
  {
    if ch > 0.0 {
      SignOfProduct(x + y, ch);
      assert ch * (x + y) == (x + y) * ch;
    }
  }

  lemma FloorSign(mp: ModelParams)
    requires mp.alpha >= 0.0 && mp.w >= 0.0 && mp.pBaseline > 0.0
    ensures TimeFloor(mp) >= 0.0 && (TimeFloor(mp) > 0.0 <==> mp.w > 0.0 && mp.alpha > 0.0)
  {
    var q := mp.w / mp.pBaseline;
    assert q * mp.pBaseline == mp.w;
    SignOfProduct(q, mp.pBaseline);
    SignOfProduct(-q, mp.pBaseline);
    if mp.alpha > 0.0 {
      SignOfProduct(q, mp.alpha);
      SignOfProduct(-q, mp.alpha);
    }
  }

  /**
   Cost strictly rises with every node exactly when nodes have a price, and when there is
   provisioning time to pay for, or overhead on some work, or no throughput at all.
   */
  lemma CostStrictlyIncreasingIff(i: int, j: int, mp: ModelParams, ch: real)
    requires CostGrows(mp, ch) && 1 <= i < j
    ensures PredCost(i, mp, ch) < PredCost(j, mp, ch)
       <==> ch > 0.0 && (mp.pBaseline <= 0.0 || (mp.w > 0.0 && mp.alpha > 0.0) || mp.tProvAvg > 0.0)
  {
    CostAffine(i, j, mp, ch);
    SignOfProduct(CostSlope(mp, ch), (j - i) as real);
    SlopeSign(mp, ch);
  }

  lemma SlopeSign(mp: ModelParams, ch: real)
    requires CostGrows(mp, ch)
    ensures CostSlope(mp, ch) > 0.0
       <==> ch > 0.0 && (mp.pBaseline <= 0.0 || (mp.w > 0.0 && mp.alpha > 0.0) || mp.tProvAvg > 0.0)
  {
    if mp.pBaseline > 0.0 {
      FloorSign(mp);
      PositiveSum(TimeFloor(mp), mp.tProvAvg, ch, CostSlope(mp, ch));
    } else {
      PositiveSum(MaxFloat64(), mp.tProvAvg, ch, CostSlope(mp, ch));
    }
  }

  lemma CostPositive(n: int, mp: ModelParams, ch: real)
    requires CostGrows(mp, ch) && n >= 1
    ensures PredCost(n, mp, ch) >= 0.0
    ensures PredCost(n, mp, ch) == 0.0 ==> ch == 0.0 || (mp.pBaseline > 0.0 && mp.w == 0.0 && mp.tProvAvg == 0.0)
  {
    ThroughputForm(n, mp);
    var k, t := n as real, PredT(n, mp);
    var p := PredP(n, mp);
    if p > 0.0 {
      assert t * p == mp.w;
      SignOfProduct(-t, p);
      assert t >= 0.0;
    }
    var h := ch * k;
    assert h >= 0.0;
    assert h * t >= 0.0 && h * mp.tProvAvg >= 0.0;
    if PredCost(n, mp, ch) == 0.0 && ch > 0.0 {
      assert h > 0.0;
      assert h * t == 0.0 && h * mp.tProvAvg == 0.0;
      assert t == 0.0;
    }
  }

  lemma BelowOnePercent(rise: real, base: real, ratio: real)
    requires base > 0.0 && ratio == rise / base
    ensures ratio < 0.01 <==> 100.0 * rise < base
  {
    assert ratio * base == rise;
    SignOfProduct(ratio - 0.01, base);
    assert (ratio - 0.01) * base == rise - 0.01 * base;
  }

  /**
   The curve counts as flat exactly when two nodes cost nothing, or when one percent of their cost is
   more than all the nodes beyond two add to it.
   */
  lemma FlatCostIff(mp: ModelParams, ch: real, maxNodes: int)
    requires CostGrows(mp, ch) && maxNodes >= 2
    ensures IsFlatCost(mp, ch, maxNodes)
       <==> PredCost(2, mp, ch) == 0.0 || 100.0 * (CostSlope(mp, ch) * (maxNodes - 2) as real) < PredCost(2, mp, ch)
  {
    var c2, cMax := PredCost(2, mp, ch), PredCost(maxNodes, mp, ch);
    CostPositive(2, mp, ch);
    CostNonDecreasing(2, maxNodes, mp, ch);
    CostAffine(2, maxNodes, mp, ch);
    var rise := CostSlope(mp, ch) * (maxNodes - 2) as real;
    assert rise == cMax - c2 >= 0.0;
    if c2 > 0.0 {
      BelowOnePercent(rise, c2, Abs(cMax - c2) / c2);
    }
  }

  /** A flat curve: every node count in the range costs less than 1% more than two nodes do. */
  lemma FlatCostBound(n: int, mp: ModelParams, ch: real, maxNodes: int)
    requires CostGrows(mp, ch) && 2 <= n <= maxNodes
    requires IsFlatCost(mp, ch, maxNodes)
    ensures PredCost(2, mp, ch) <= PredCost(n, mp, ch)
    ensures PredCost(2, mp, ch) == 0.0 ==> PredCost(n, mp, ch) == 0.0
    ensures PredCost(2, mp, ch) > 0.0 ==> PredCost(n, mp, ch) < 1.01 * PredCost(2, mp, ch)
  {
    var c2, cn, cMax := PredCost(2, mp, ch), PredCost(n, mp, ch), PredCost(maxNodes, mp, ch);
    CostPositive(2, mp, ch);
    CostNonDecreasing(2, n, mp, ch);
    CostNonDecreasing(n, maxNodes, mp, ch);
    if c2 == 0.0 {
      CostAffine(2, n, mp, ch);
      assert CostSlope(mp, ch) == 0.0;
    } else {
      var ratio := Abs(cMax - c2) / c2;
      assert ratio * c2 == cMax - c2;
      SignOfProduct(ratio - 0.01, c2);
    }
  }
}

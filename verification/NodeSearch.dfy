/**
 The two binary searches of the topology solver, proved equal to linear scans over
 the node range.
 */
module NodeSearch {
  import opened Common
  import opened ScalingModel

  // ----- reference scans

  /** The smallest n in [lo, hi] with T(n) <= target; hi when there is none. */
  function SmallestMeeting(lo: int, hi: int, target: real, mp: ModelParams): (r: int)
    requires 1 <= lo <= hi && mp.alpha >= 0.0
    ensures lo <= r <= hi
    ensures forall n | lo <= n < r :: PredT(n, mp) > target
    ensures r < hi ==> PredT(r, mp) <= target
    decreases hi - lo
  {
    if lo == hi || PredT(lo, mp) <= target then lo else SmallestMeeting(lo + 1, hi, target, mp)
  }

  /** The largest n in [lo, hi] with Cost(n) <= budget; lo when there is none. */
  function LargestAffordable(lo: int, hi: int, budget: real, mp: ModelParams, ch: real): (r: int)
    requires 1 <= lo <= hi && mp.alpha >= 0.0
    ensures lo <= r <= hi
    ensures forall n | r < n <= hi :: PredCost(n, mp, ch) > budget
    ensures lo < r ==> PredCost(r, mp, ch) <= budget
    decreases hi - lo
  {
    if lo == hi || PredCost(hi, mp, ch) <= budget then hi else LargestAffordable(lo, hi - 1, budget, mp, ch)
  }

  /** What binarySearchMinN returns: the scan, guarded by a test of the upper end. */
  function TimeNodes(lo: int, maxNodes: int, target: real, mp: ModelParams): (r: int)
    requires 1 <= lo <= maxNodes && mp.alpha >= 0.0
    ensures lo <= r <= maxNodes
    ensures PredT(maxNodes, mp) <= target ==> PredT(r, mp) <= target
    ensures PredT(r, mp) > target ==> r == maxNodes
  {
    if PredT(maxNodes, mp) > target then maxNodes else SmallestMeeting(lo, maxNodes, target, mp)
  }

  /** What binarySearchMaxN returns: the scan, guarded by a test of the lower end. */
  function BudgetNodes(lo: int, maxNodes: int, budget: real, mp: ModelParams, ch: real): (r: int)
    requires 1 <= lo <= maxNodes && mp.alpha >= 0.0
    ensures lo <= r <= maxNodes
    ensures PredCost(lo, mp, ch) <= budget ==> PredCost(r, mp, ch) <= budget
    ensures PredCost(r, mp, ch) > budget ==> r == lo
  {
    if PredCost(lo, mp, ch) > budget then lo else LargestAffordable(lo, maxNodes, budget, mp, ch)
  }

  // ----- the loops

  /** T is non-increasing or non-decreasing, so a crossing below a feasible upper end is a fall. */
  lemma TimeCrossing(n: int, mid: int, maxNodes: int, target: real, mp: ModelParams)
    requires 1 <= n <= mid <= maxNodes && mp.alpha >= 0.0
    requires PredT(maxNodes, mp) <= target < PredT(mid, mp)
    ensures PredT(n, mp) > target
  {
    TimeOneDirection(mid, maxNodes, n, mid, mp);
  }

  lemma CostCrossing(n: int, mid: int, lo: int, budget: real, mp: ModelParams, ch: real)
    requires 1 <= lo <= mid <= n && mp.alpha >= 0.0
    requires PredCost(lo, mp, ch) <= budget < PredCost(mid, mp, ch)
    ensures PredCost(n, mp, ch) > budget
  {
    CostAffine(lo, mid, mp, ch);
    CostAffine(mid, n, mp, ch);
    var s := CostSlope(mp, ch);
    assert s * (mid - lo) as real > 0.0;
    SignOfProduct(-s, (mid - lo) as real);
    assert s > 0.0;
    assert s * (n - mid) as real >= 0.0;
  }

  method BinarySearchMinN(lo0: int32, maxNodes: int32, target: real, mp: ModelParams) returns (r: int32)
    requires 1 <= lo0 <= maxNodes <= 0x4000_0000 && mp.alpha >= 0.0
    ensures r as int == TimeNodes(lo0 as int, maxNodes as int, target, mp)
  {
    if PredT(maxNodes as int, mp) > target {
      return maxNodes;
    }
    var lo, hi := lo0, maxNodes;
    while lo < hi
      invariant lo0 <= lo <= hi <= maxNodes
      invariant PredT(hi as int, mp) <= target
      invariant forall n | lo0 as int <= n < lo as int :: PredT(n, mp) > target
    {
      var mid := (lo + hi) / 2;
      if PredT(mid as int, mp) <= target {
        hi := mid;
      } else {
        forall n | lo0 as int <= n <= mid as int
          ensures PredT(n, mp) > target
        {
          TimeCrossing(n, mid as int, maxNodes as int, target, mp);
        }
        lo := mid + 1;
      }
    }
    r := lo;
  }

  method BinarySearchMaxN(lo0: int32, maxNodes: int32, budget: real, mp: ModelParams, ch: real) returns (r: int32)
    requires 1 <= lo0 <= maxNodes < 0x4000_0000 && mp.alpha >= 0.0
    ensures r as int == BudgetNodes(lo0 as int, maxNodes as int, budget, mp, ch)
  {
    if PredCost(lo0 as int, mp, ch) > budget {
      return lo0;
    }
    var lo, hi := lo0, maxNodes;
    while lo < hi
      invariant lo0 <= lo <= hi <= maxNodes
      invariant PredCost(lo as int, mp, ch) <= budget
      invariant forall n | hi as int < n <= maxNodes as int :: PredCost(n, mp, ch) > budget
    {
      var mid := (lo + hi + 1) / 2;
      if PredCost(mid as int, mp, ch) <= budget {
        lo := mid;
      } else {
        forall n | mid as int <= n <= maxNodes as int
          ensures PredCost(n, mp, ch) > budget
        {
          CostCrossing(n, mid as int, lo0 as int, budget, mp, ch);
        }
        hi := mid - 1;
      }
    }
    r := lo;
  }

  /** The sum halved for the midpoint of [lo, hi] is an int32; `up` is 1 when the midpoint rounds up. */
  predicate MidpointFits(lo: int, hi: int, up: int) {
    -0x8000_0000 <= lo + hi + up < 0x8000_0000
  }

  /** The largest caps for which no bracket within [2, maxNodes] can overflow. */
  lemma MidpointSumsFitIff(maxNodes: int)
    requires maxNodes > 2
    ensures (forall lo, hi | 2 <= lo < hi <= maxNodes :: MidpointFits(lo, hi, 0)) <==> maxNodes <= 0x4000_0000
    ensures (forall lo, hi | 2 <= lo < hi <= maxNodes :: MidpointFits(lo, hi, 1)) <==> maxNodes < 0x4000_0000
  {
    assert MidpointFits(maxNodes - 1, maxNodes, 0) <==> maxNodes <= 0x4000_0000;
    assert MidpointFits(maxNodes - 1, maxNodes, 1) <==> maxNodes < 0x4000_0000;
  }

  // ----- what the searches promise

  /**
   The documented result, the smallest n meeting the target or maxNodes when none does,
   is returned except when the lower end already meets the target and the upper does not.
   */
  lemma MinSearchCorrectIff(lo: int, maxNodes: int, target: real, mp: ModelParams)
    requires 1 <= lo <= maxNodes && mp.alpha >= 0.0
    ensures TimeNodes(lo, maxNodes, target, mp) == SmallestMeeting(lo, maxNodes, target, mp)
       <==> !(PredT(lo, mp) <= target < PredT(maxNodes, mp))
  {
    var r := SmallestMeeting(lo, maxNodes, target, mp);
    if PredT(maxNodes, mp) > target && PredT(lo, mp) > target && r < maxNodes {
      TimeOneDirection(lo, r, r, maxNodes, mp);
      assert false;
    }
  }

  /** For a fitted overhead of at most 1 the exceptional case cannot arise. */
  lemma MinSearchCorrect(lo: int, maxNodes: int, target: real, mp: ModelParams)
    requires 1 <= lo <= maxNodes && 0.0 <= mp.alpha <= 1.0 && mp.w >= 0.0
    ensures TimeNodes(lo, maxNodes, target, mp) == SmallestMeeting(lo, maxNodes, target, mp)
  {
    MinSearchCorrectIff(lo, maxNodes, target, mp);
    if mp.pBaseline > 0.0 && lo < maxNodes {
      TimeOrder(lo, maxNodes, mp);
      assert mp.w * (1.0 - mp.alpha) >= 0.0;
    } else {
      ThroughputForm(lo, mp);
      ThroughputForm(maxNodes, mp);
    }
  }

  /** When cost cannot fall, the lower end is affordable whenever anything is. */
  lemma MaxSearchCorrect(lo: int, maxNodes: int, budget: real, mp: ModelParams, ch: real)
    requires 1 <= lo <= maxNodes && CostGrows(mp, ch)
    ensures BudgetNodes(lo, maxNodes, budget, mp, ch) == LargestAffordable(lo, maxNodes, budget, mp, ch)
    ensures forall n | lo <= n <= maxNodes && PredCost(lo, mp, ch) <= budget ::
              PredCost(n, mp, ch) <= budget <==> n <= BudgetNodes(lo, maxNodes, budget, mp, ch)
  {
    var r := LargestAffordable(lo, maxNodes, budget, mp, ch);
    CostNonDecreasing(lo, r, mp, ch);
    var b := BudgetNodes(lo, maxNodes, budget, mp, ch);
    forall n | lo <= n <= maxNodes && PredCost(lo, mp, ch) <= budget
      ensures PredCost(n, mp, ch) <= budget <==> n <= b
    {
      if n <= b {
        CostNonDecreasing(n, b, mp, ch);
      }
    }
  }

  // ----- monotonicity in the constraint

  lemma TimeNodesMonotone(lo: int, maxNodes: int, tight: real, loose: real, mp: ModelParams)
    requires 1 <= lo <= maxNodes && mp.alpha >= 0.0 && tight <= loose
    ensures TimeNodes(lo, maxNodes, loose, mp) <= TimeNodes(lo, maxNodes, tight, mp)
  {
    if PredT(maxNodes, mp) <= tight {
      var a, b := SmallestMeeting(lo, maxNodes, tight, mp), SmallestMeeting(lo, maxNodes, loose, mp);
      assert b <= a;
    }
  }

  lemma BudgetNodesMonotone(lo: int, maxNodes: int, small: real, large: real, mp: ModelParams, ch: real)
    requires 1 <= lo <= maxNodes && mp.alpha >= 0.0 && small <= large
    ensures BudgetNodes(lo, maxNodes, small, mp, ch) <= BudgetNodes(lo, maxNodes, large, mp, ch)
  {
    if PredCost(lo, mp, ch) <= small {
      var a, b := LargestAffordable(lo, maxNodes, small, mp, ch), LargestAffordable(lo, maxNodes, large, mp, ch);
      assert a <= b;
    }
  }
}

/** The topology solver: from recorded runs, a price and constraints to a node count. */
module Solver {
  import opened Common
  import opened ScalingModel
  import opened NodeSearch
  import opened HistoryFit

  datatype Backend = PyTorch | Spark | PlainJob | OtherBackend

  /** A constraint field: left empty, not parseable, or a number (seconds, dollars). */
  datatype Field = Unset | Malformed | Parsed(value: real)

  datatype Objective = Objective(targetTime: Field, maxCost: Field, maxNodes: int32)

  datatype Topology = Topology(
    nodes: int,
    masterReplicas: int,
    workerReplicas: int,
    estimatedTime: Option<real>,  // None reads "unknown"
    estimatedCost: Option<real>
  )

  /** The run scheduled when the model cannot be used. */
  function Calibration(defaultNodes: int): Topology {
    Topology(defaultNodes, 1, defaultNodes - 1, None, None)
  }

  /** The node count with its replica split and estimates; a price of 0 is not reported. */
  function BuildTopology(backend: Backend, n: int, mp: ModelParams, price: Option<real>): Topology
    requires n >= 1 && mp.alpha >= 0.0
  {
    var t := PredT(n, mp);
    Topology(
      n,
      if backend.PyTorch? then 1 else 0,
      if backend.PyTorch? then n - 1 else 0,
      if t >= MaxFloat64() / 2.0 then None else Some(t),
      if price.Some? && price.value > 0.0 then Some(PredCost(n, mp, price.value)) else None)
  }

  // ----- node counts by constraint

  /** Cost alone: everything within reach, where a flat curve counts as wholly within reach. */
  function CostNodes(maxNodes: int, budget: real, mp: ModelParams, ch: real): (n: int)
    requires maxNodes >= 2 && mp.alpha >= 0.0
    ensures 2 <= n <= maxNodes
  {
    if IsFlatCost(mp, ch, maxNodes) && PredCost(2, mp, ch) <= budget then maxNodes
    else BudgetNodes(2, maxNodes, budget, mp, ch)
  }

  /** Time and cost: the node count for time when it is affordable, else the one for the budget. */
  function BothNodes(maxNodes: int, target: real, budget: real, mp: ModelParams, ch: real): (n: int)
    requires maxNodes >= 2 && mp.alpha >= 0.0
    ensures 2 <= n <= maxNodes
  {
    var nTime := TimeNodes(2, maxNodes, target, mp);
    if PredCost(nTime, mp, ch) <= budget then nTime else BudgetNodes(2, maxNodes, budget, mp, ch)
  }

  /** What the solver answers for a fitted model, with linear scans in place of its searches. */
  function Choose(defaultNodes: int, backend: Backend, obj: Objective, mp: ModelParams, price: Option<real>)
    : Result<Topology>
    requires obj.maxNodes >= 2 && mp.alpha >= 0.0
  {
    var maxNodes := obj.maxNodes as int;
    match (price, obj.targetTime, obj.maxCost)
    case (None, Unset, _) => Ok(Calibration(defaultNodes))
    case (None, Parsed(t), _) => Ok(BuildTopology(backend, TimeNodes(2, maxNodes, t, mp), mp, None))
    case (Some(ch), Parsed(t), Unset) => Ok(BuildTopology(backend, TimeNodes(2, maxNodes, t, mp), mp, price))
    case (Some(ch), Unset, Parsed(b)) => Ok(BuildTopology(backend, CostNodes(maxNodes, b, mp, ch), mp, price))
    case (Some(ch), Parsed(t), Parsed(b)) => Ok(BuildTopology(backend, BothNodes(maxNodes, t, b, mp, ch), mp, price))
    case _ => Err
  }

  ghost predicate Loadable(history: Option<seq<Entry>>) {
    history.Some? && history.value != [] ==> Usable(history.value)
  }

  /** What the solver answers; no history means it could not be loaded. */
  ghost function Solve(defaultNodes: int, backend: Backend, obj: Objective, history: Option<seq<Entry>>,
                       price: Option<real>): Result<Topology>
    requires obj.maxNodes >= 2 && Loadable(history)
  {
    if history.None? then Err
    else if history.value == [] then Ok(Calibration(defaultNodes))
    else Choose(defaultNodes, backend, obj, EstimatedModel(history.value), price)
  }

  // ----- the branches as the program runs them

  method SolveTimeOnly(backend: Backend, obj: Objective, mp: ModelParams, price: Option<real>)
    returns (r: Result<Topology>)
    requires 2 <= obj.maxNodes < 0x4000_0000 && mp.alpha >= 0.0
    ensures r == match obj.targetTime
                 case Parsed(t) => Ok(BuildTopology(backend, TimeNodes(2, obj.maxNodes as int, t, mp), mp, price))
                 case _ => Err
  {
    if !obj.targetTime.Parsed? {
      return Err;
    }
    var nTime := BinarySearchMinN(2, obj.maxNodes, obj.targetTime.value, mp);
    r := Ok(BuildTopology(backend, nTime as int, mp, price));
  }

  method SolveCostOnly(backend: Backend, obj: Objective, mp: ModelParams, ch: real, flat: bool)
    returns (r: Result<Topology>)
    requires 2 <= obj.maxNodes < 0x4000_0000 && mp.alpha >= 0.0
    requires flat == IsFlatCost(mp, ch, obj.maxNodes as int)
    ensures r == match obj.maxCost
                 case Parsed(b) => Ok(BuildTopology(backend, CostNodes(obj.maxNodes as int, b, mp, ch), mp, Some(ch)))
                 case _ => Err
  {
    if !obj.maxCost.Parsed? {
      return Err;
    }
    var bMax := obj.maxCost.value;
    var nBudget: int32;
    if flat {
      if PredCost(2, mp, ch) <= bMax {
        nBudget := obj.maxNodes;
      } else {
        nBudget := 2;
      }
    } else {
      if PredCost(2, mp, ch) > bMax {
        nBudget := 2;
      } else {
        nBudget := BinarySearchMaxN(2, obj.maxNodes, bMax, mp, ch);
      }
    }
    r := Ok(BuildTopology(backend, nBudget as int, mp, Some(ch)));
  }

  method SolveBoth(backend: Backend, obj: Objective, mp: ModelParams, ch: real, flat: bool)
    returns (r: Result<Topology>)
    requires 2 <= obj.maxNodes < 0x4000_0000 && mp.alpha >= 0.0
    ensures r == match (obj.targetTime, obj.maxCost)
                 case (Parsed(t), Parsed(b)) =>
                   Ok(BuildTopology(backend, BothNodes(obj.maxNodes as int, t, b, mp, ch), mp, Some(ch)))
                 case _ => Err
    ensures r.Ok? && CostGrows(mp, ch) ==>
              r.value.nodes == Min(TimeNodes(2, obj.maxNodes as int, obj.targetTime.value, mp),
                                   BudgetNodes(2, obj.maxNodes as int, obj.maxCost.value, mp, ch))
  {
    if !obj.targetTime.Parsed? || !obj.maxCost.Parsed? {
      return Err;
    }
    var tTarget, bMax := obj.targetTime.value, obj.maxCost.value;
    if CostGrows(mp, ch) {
      BothIsMin(obj.maxNodes as int, tTarget, bMax, mp, ch);
    }
    var nTime := BinarySearchMinN(2, obj.maxNodes, tTarget, mp);
    var costAtNTime := PredCost(nTime as int, mp, ch);
    if costAtNTime <= bMax {
      return Ok(BuildTopology(backend, nTime as int, mp, Some(ch)));
    }
    if flat && PredCost(2, mp, ch) > bMax {
      return Ok(BuildTopology(backend, 2, mp, Some(ch)));
    }
    if PredCost(2, mp, ch) > bMax {
      return Ok(BuildTopology(backend, 2, mp, Some(ch)));
    }
    var nBudget := BinarySearchMaxN(2, obj.maxNodes, bMax, mp, ch);
    r := Ok(BuildTopology(backend, nBudget as int, mp, Some(ch)));
  }

  method RunSolver(defaultNodes: int, backend: Backend, obj: Objective, history: Option<seq<Entry>>,
                   price: Option<real>)
    returns (r: Result<Topology>)
    requires 2 <= obj.maxNodes < 0x4000_0000 && Loadable(history)
    ensures r == Solve(defaultNodes, backend, obj, history, price)
  {
    if history.None? {
      return Err;
    }
    if history.value == [] {
      return Ok(Calibration(defaultNodes));
    }
    var mp := EstimateModel(history.value);
    if price.None? {
      if obj.targetTime.Unset? {
        return Ok(Calibration(defaultNodes));
      }
      r := SolveTimeOnly(backend, obj, mp, None);
      return;
    }
    var flat := IsFlatCost(mp, price.value, obj.maxNodes as int);
    var hasTime, hasCost := !obj.targetTime.Unset?, !obj.maxCost.Unset?;
    if hasTime && !hasCost {
      r := SolveTimeOnly(backend, obj, mp, price);
    } else if !hasTime && hasCost {
      r := SolveCostOnly(backend, obj, mp, price.value, flat);
    } else {
      r := SolveBoth(backend, obj, mp, price.value, flat);
    }
  }

  // ----- time and cost together

  /** Flat or not, the answer is the smaller of the two single-constraint answers. */
  lemma BothIsMin(maxNodes: int, target: real, budget: real, mp: ModelParams, ch: real)
    requires maxNodes >= 2 && CostGrows(mp, ch)
    ensures BothNodes(maxNodes, target, budget, mp, ch)
         == Min(TimeNodes(2, maxNodes, target, mp), BudgetNodes(2, maxNodes, budget, mp, ch))
  {
    var nTime, nBudget := TimeNodes(2, maxNodes, target, mp), BudgetNodes(2, maxNodes, budget, mp, ch);
    MaxSearchCorrect(2, maxNodes, budget, mp, ch);
    CostNonDecreasing(2, nTime, mp, ch);
  }

  predicate MeetsBoth(n: int, target: real, budget: real, mp: ModelParams, ch: real)
    requires n >= 1 && mp.alpha >= 0.0
  {
    PredT(n, mp) <= target && PredCost(n, mp, ch) <= budget
  }

  /** Whenever some node count meets both constraints, r is the smallest one. */
  ghost predicate SmallestForBoth(r: int, maxNodes: int, target: real, budget: real, mp: ModelParams, ch: real)
    requires mp.alpha >= 0.0
  {
    forall n | 2 <= n <= maxNodes && MeetsBoth(n, target, budget, mp, ch) ::
      2 <= r <= n && MeetsBoth(r, target, budget, mp, ch)
  }

  /**
   The smallest node count meeting both constraints is chosen, whenever there is one,
   except when two nodes meet the target, maxNodes do not, and three nodes are affordable.
   */
  lemma BothSmallestIff(maxNodes: int, target: real, budget: real, mp: ModelParams, ch: real)
    requires maxNodes >= 2 && CostGrows(mp, ch)
    ensures SmallestForBoth(BothNodes(maxNodes, target, budget, mp, ch), maxNodes, target, budget, mp, ch)
       <==> !(PredT(2, mp) <= target < PredT(maxNodes, mp) && PredCost(3, mp, ch) <= budget)
  {
    var r := BothNodes(maxNodes, target, budget, mp, ch);
    BothIsMin(maxNodes, target, budget, mp, ch);
    MaxSearchCorrect(2, maxNodes, budget, mp, ch);
    CostNonDecreasing(2, 3, mp, ch);
    if PredT(2, mp) <= target < PredT(maxNodes, mp) && PredCost(3, mp, ch) <= budget {
      assert MeetsBoth(2, target, budget, mp, ch);
      assert r >= 3;
    } else {
      forall n | 2 <= n <= maxNodes && MeetsBoth(n, target, budget, mp, ch)
        ensures r <= n && MeetsBoth(r, target, budget, mp, ch)
      {
        CostNonDecreasing(2, n, mp, ch);
        SmallestForBothStep(n, maxNodes, target, budget, mp, ch);
      }
    }
  }

  lemma SmallestForBothStep(n: int, maxNodes: int, target: real, budget: real, mp: ModelParams, ch: real)
    requires maxNodes >= 2 && CostGrows(mp, ch)
    requires 2 <= n <= maxNodes && MeetsBoth(n, target, budget, mp, ch)
    requires !(PredT(2, mp) <= target < PredT(maxNodes, mp) && PredCost(3, mp, ch) <= budget)
    ensures var r := BothNodes(maxNodes, target, budget, mp, ch);
            r <= n && MeetsBoth(r, target, budget, mp, ch)
  {
    if PredT(maxNodes, mp) <= target {
      CostNonDecreasing(TimeNodes(2, maxNodes, target, mp), n, mp, ch);
    } else {
      MinSearchCorrectIff(2, maxNodes, target, mp);
      assert PredT(2, mp) <= target;
      if n > 2 {
        CostNonDecreasing(3, n, mp, ch);
        assert false;
      }
      var nBudget := BudgetNodes(2, maxNodes, budget, mp, ch);
      if nBudget > 2 {
        CostNonDecreasing(3, nBudget, mp, ch);
        assert false;
      }
      CostNonDecreasing(3, maxNodes, mp, ch);
    }
  }

  /** What is reported as a conflict, the node count for time being too dear, means that no node count meets both. */
  ghost predicate ConflictIsReal(maxNodes: int, target: real, budget: real, mp: ModelParams, ch: real)
    requires maxNodes >= 2 && mp.alpha >= 0.0
  {
    PredCost(TimeNodes(2, maxNodes, target, mp), mp, ch) > budget ==>
      forall n | 2 <= n <= maxNodes :: !MeetsBoth(n, target, budget, mp, ch)
  }

  /**
   It does, except when two nodes meet both constraints while maxNodes meet neither the target
   nor the budget.
   */
  lemma ConflictIsRealIff(maxNodes: int, target: real, budget: real, mp: ModelParams, ch: real)
    requires maxNodes >= 2 && CostGrows(mp, ch)
    ensures ConflictIsReal(maxNodes, target, budget, mp, ch)
       <==> !(&& MeetsBoth(2, target, budget, mp, ch)
              && PredT(maxNodes, mp) > target && PredCost(maxNodes, mp, ch) > budget)
  {
    var nTime := TimeNodes(2, maxNodes, target, mp);
    MinSearchCorrectIff(2, maxNodes, target, mp);
    forall n | 2 <= n <= maxNodes && MeetsBoth(n, target, budget, mp, ch)
      ensures PredCost(2, mp, ch) <= budget && (nTime <= n ==> PredCost(nTime, mp, ch) <= budget)
    {
      CostNonDecreasing(2, n, mp, ch);
      if nTime <= n {
        CostNonDecreasing(nTime, n, mp, ch);
      }
    }
  }

  /** With an overhead of at most 1 the choice is the smallest, hence the cheapest, that meets both. */
  lemma BothOptimal(maxNodes: int, target: real, budget: real, mp: ModelParams, ch: real, n: int)
    requires maxNodes >= 2 && CostGrows(mp, ch) && mp.alpha <= 1.0
    requires 2 <= n <= maxNodes && MeetsBoth(n, target, budget, mp, ch)
    ensures var r := BothNodes(maxNodes, target, budget, mp, ch);
            r <= n && MeetsBoth(r, target, budget, mp, ch) && PredCost(r, mp, ch) <= PredCost(n, mp, ch)
  {
    MinSearchCorrect(2, maxNodes, target, mp);
    MinSearchCorrectIff(2, maxNodes, target, mp);
    BothSmallestIff(maxNodes, target, budget, mp, ch);
    CostNonDecreasing(BothNodes(maxNodes, target, budget, mp, ch), n, mp, ch);
  }

  /** Whatever the time target, the budget is respected as soon as two nodes fit it. */
  lemma BothWithinBudget(maxNodes: int, target: real, budget: real, mp: ModelParams, ch: real)
    requires maxNodes >= 2 && mp.alpha >= 0.0 && PredCost(2, mp, ch) <= budget
    ensures PredCost(BothNodes(maxNodes, target, budget, mp, ch), mp, ch) <= budget
  {
  }

  // ----- cost alone

  /**
   The cost-only answer is the largest affordable node count unless the curve is flat and
   its far end is out of budget; then it overshoots, by less than one percent.
   */
  lemma CostOnlyWithinOnePercent(maxNodes: int, budget: real, mp: ModelParams, ch: real)
    requires maxNodes >= 2 && CostGrows(mp, ch) && PredCost(2, mp, ch) <= budget
    ensures var n, overshoots := CostNodes(maxNodes, budget, mp, ch),
                                 IsFlatCost(mp, ch, maxNodes) && PredCost(maxNodes, mp, ch) > budget;
            && (n == LargestAffordable(2, maxNodes, budget, mp, ch) <==> !overshoots)
            && (PredCost(n, mp, ch) > budget <==> overshoots)
            && (overshoots ==> PredCost(n, mp, ch) < 1.01 * budget)
  {
    MaxSearchCorrect(2, maxNodes, budget, mp, ch);
    CostPositive(2, mp, ch);
    if IsFlatCost(mp, ch, maxNodes) {
      FlatCostBound(maxNodes, mp, ch, maxNodes);
    }
  }

  // ----- what the answers mean, in terms of predicted time and cost alone

  /** r is the smallest count in the range that meets the target, or maxNodes when that misses it. */
  ghost predicate ChosenForTime(r: int, maxNodes: int, target: real, mp: ModelParams)
    requires maxNodes >= 2 && mp.alpha >= 0.0
  {
    && 2 <= r <= maxNodes
    && if PredT(maxNodes, mp) > target then r == maxNodes
       else PredT(r, mp) <= target && forall n | 2 <= n < r :: PredT(n, mp) > target
  }

  /** r is the largest count in the range that the budget allows, or 2 when that is too dear. */
  ghost predicate ChosenForCost(r: int, maxNodes: int, budget: real, mp: ModelParams, ch: real)
    requires maxNodes >= 2 && mp.alpha >= 0.0
  {
    && 2 <= r <= maxNodes
    && if PredCost(2, mp, ch) > budget then r == 2
       else PredCost(r, mp, ch) <= budget && forall n | r < n <= maxNodes :: PredCost(n, mp, ch) > budget
  }

  lemma TimeNodesChosen(r: int, maxNodes: int, target: real, mp: ModelParams)
    requires maxNodes >= 2 && mp.alpha >= 0.0
    ensures ChosenForTime(r, maxNodes, target, mp) <==> r == TimeNodes(2, maxNodes, target, mp)
  {
  }

  lemma BudgetNodesChosen(r: int, maxNodes: int, budget: real, mp: ModelParams, ch: real)
    requires maxNodes >= 2 && mp.alpha >= 0.0
    ensures ChosenForCost(r, maxNodes, budget, mp, ch) <==> r == BudgetNodes(2, maxNodes, budget, mp, ch)
  {
  }

  /** With a target and no budget, or no price to evaluate it with, the target alone decides. */
  lemma TimeOnlyAnswer(defaultNodes: int, backend: Backend, obj: Objective, h: seq<Entry>, price: Option<real>)
    requires obj.maxNodes >= 2 && Usable(h)
    requires obj.targetTime.Parsed? && (obj.maxCost.Unset? || price.None?)
    ensures var r := Solve(defaultNodes, backend, obj, Some(h), price);
            r.Ok? && ChosenForTime(r.value.nodes, obj.maxNodes as int, obj.targetTime.value, EstimatedModel(h))
  {
    var mp, t := EstimatedModel(h), obj.targetTime.value;
    TimeNodesChosen(TimeNodes(2, obj.maxNodes as int, t, mp), obj.maxNodes as int, t, mp);
  }

  /** With a budget and no target the budget alone decides, unless two nodes fit it and the curve is flat. */
  lemma CostOnlyAnswer(defaultNodes: int, backend: Backend, obj: Objective, h: seq<Entry>, ch: real)
    requires obj.maxNodes >= 2 && Usable(h) && obj.targetTime.Unset? && obj.maxCost.Parsed?
    ensures var r := Solve(defaultNodes, backend, obj, Some(h), Some(ch));
            var mp, maxNodes, budget := EstimatedModel(h), obj.maxNodes as int, obj.maxCost.value;
            && r.Ok?
            && if IsFlatCost(mp, ch, maxNodes) && PredCost(2, mp, ch) <= budget then r.value.nodes == maxNodes
               else ChosenForCost(r.value.nodes, maxNodes, budget, mp, ch)
  {
    var mp, b := EstimatedModel(h), obj.maxCost.value;
    BudgetNodesChosen(BudgetNodes(2, obj.maxNodes as int, b, mp, ch), obj.maxNodes as int, b, mp, ch);
  }

  /** With both, the count for the target if the budget allows it, else the count for the budget. */
  lemma BothAnswer(defaultNodes: int, backend: Backend, obj: Objective, h: seq<Entry>, ch: real, nTime: int)
    requires obj.maxNodes >= 2 && Usable(h) && obj.targetTime.Parsed? && obj.maxCost.Parsed?
    requires ChosenForTime(nTime, obj.maxNodes as int, obj.targetTime.value, EstimatedModel(h))
    ensures var r := Solve(defaultNodes, backend, obj, Some(h), Some(ch));
            var mp, maxNodes, budget := EstimatedModel(h), obj.maxNodes as int, obj.maxCost.value;
            && r.Ok?
            && if PredCost(nTime, mp, ch) <= budget then r.value.nodes == nTime
               else ChosenForCost(r.value.nodes, maxNodes, budget, mp, ch)
  {
    var mp, maxNodes, b := EstimatedModel(h), obj.maxNodes as int, obj.maxCost.value;
    TimeNodesChosen(nTime, maxNodes, obj.targetTime.value, mp);
    BudgetNodesChosen(BudgetNodes(2, maxNodes, b, mp, ch), maxNodes, b, mp, ch);
  }

  /** A time is reported unless it comes close to the one that stands for never. */
  function Reported(seconds: real): Option<real> {
    if seconds < MaxFloat64() / 2.0 then Some(seconds) else None
  }

  /** The estimates in a topology are those of the model for its node count. */
  predicate Estimated(rt: Topology, mp: ModelParams, price: Option<real>)
    requires rt.nodes >= 1 && mp.alpha >= 0.0
  {
    && rt.estimatedTime == Reported(PredT(rt.nodes, mp))
    && (rt.estimatedCost.Some? <==> price.Some? && price.value > 0.0)
    && (rt.estimatedCost.Some? ==> rt.estimatedCost.value == PredCost(rt.nodes, mp, price.value))
  }

  lemma BuildEstimates(backend: Backend, n: int, mp: ModelParams, price: Option<real>)
    requires n >= 1 && mp.alpha >= 0.0
    ensures var rt := BuildTopology(backend, n, mp, price); rt.nodes == n && Estimated(rt, mp, price)
  {
  }

  lemma ChoiceEstimates(defaultNodes: int, backend: Backend, obj: Objective, mp: ModelParams, price: Option<real>)
    requires obj.maxNodes >= 2 && mp.alpha >= 0.0 && !(price.None? && obj.targetTime.Unset?)
    requires Choose(defaultNodes, backend, obj, mp, price).Ok?
    ensures var rt := Choose(defaultNodes, backend, obj, mp, price).value; rt.nodes >= 2 && Estimated(rt, mp, price)
  {
    ChoiceRange(defaultNodes, backend, obj, mp, price);
    BuildEstimates(backend, Choose(defaultNodes, backend, obj, mp, price).value.nodes, mp, price);
  }

  /** Whichever branch chose it, the estimates are those of the model for the chosen count. */
  lemma AnswerEstimates(defaultNodes: int, backend: Backend, obj: Objective, h: seq<Entry>, price: Option<real>)
    requires obj.maxNodes >= 2 && Usable(h) && !Calibrates(obj, Some(h), price)
    requires Solve(defaultNodes, backend, obj, Some(h), price).Ok?
    ensures var rt := Solve(defaultNodes, backend, obj, Some(h), price).value;
            rt.nodes >= 2 && Estimated(rt, EstimatedModel(h), price)
  {
    ChoiceEstimates(defaultNodes, backend, obj, EstimatedModel(h), price);
  }

  // ----- how the answer moves with the constraints

  lemma CostNodesMonotone(maxNodes: int, small: real, large: real, mp: ModelParams, ch: real)
    requires maxNodes >= 2 && mp.alpha >= 0.0 && small <= large
    ensures CostNodes(maxNodes, small, mp, ch) <= CostNodes(maxNodes, large, mp, ch)
  {
    BudgetNodesMonotone(2, maxNodes, small, large, mp, ch);
  }

  lemma BothNodesMonotone(maxNodes: int, t1: real, t2: real, b1: real, b2: real, mp: ModelParams, ch: real)
    requires maxNodes >= 2 && CostGrows(mp, ch)
    ensures t1 <= t2 ==> BothNodes(maxNodes, t2, b1, mp, ch) <= BothNodes(maxNodes, t1, b1, mp, ch)
    ensures b1 <= b2 ==> BothNodes(maxNodes, t1, b1, mp, ch) <= BothNodes(maxNodes, t1, b2, mp, ch)
  {
    BothIsMin(maxNodes, t1, b1, mp, ch);
    BothIsMin(maxNodes, t2, b1, mp, ch);
    BothIsMin(maxNodes, t1, b2, mp, ch);
    if t1 <= t2 {
      TimeNodesMonotone(2, maxNodes, t1, t2, mp);
    }
    if b1 <= b2 {
      BudgetNodesMonotone(2, maxNodes, b1, b2, mp, ch);
    }
  }

  /** Loosening the time target never buys more nodes, whichever branch applies. */
  lemma LooserTargetNeverMoreNodes(defaultNodes: int, backend: Backend, obj: Objective, target: real,
                                   mp: ModelParams, price: Option<real>)
    requires obj.maxNodes >= 2 && mp.alpha >= 0.0 && (price.Some? ==> CostGrows(mp, price.value))
    requires obj.targetTime.Parsed? && obj.targetTime.value <= target
    ensures var r := Choose(defaultNodes, backend, obj, mp, price);
            var r' := Choose(defaultNodes, backend, obj.(targetTime := Parsed(target)), mp, price);
            (r.Ok? <==> r'.Ok?) && (r.Ok? ==> r'.value.nodes <= r.value.nodes)
  {
    var maxNodes, t := obj.maxNodes as int, obj.targetTime.value;
    TimeNodesMonotone(2, maxNodes, t, target, mp);
    if price.Some? && obj.maxCost.Parsed? {
      BothNodesMonotone(maxNodes, t, target, obj.maxCost.value, obj.maxCost.value, mp, price.value);
    }
  }

  /** Raising the budget never buys fewer nodes, whichever branch applies. */
  lemma LargerBudgetNeverFewerNodes(defaultNodes: int, backend: Backend, obj: Objective, budget: real,
                                    mp: ModelParams, price: Option<real>)
    requires obj.maxNodes >= 2 && mp.alpha >= 0.0 && (price.Some? ==> CostGrows(mp, price.value))
    requires obj.maxCost.Parsed? && obj.maxCost.value <= budget
    ensures var r := Choose(defaultNodes, backend, obj, mp, price);
            var r' := Choose(defaultNodes, backend, obj.(maxCost := Parsed(budget)), mp, price);
            (r.Ok? <==> r'.Ok?) && (r.Ok? ==> r.value.nodes <= r'.value.nodes)
  {
    if price.Some? {
      var maxNodes, b := obj.maxNodes as int, obj.maxCost.value;
      CostNodesMonotone(maxNodes, b, budget, mp, price.value);
      if obj.targetTime.Parsed? {
        var t := obj.targetTime.value;
        BothNodesMonotone(maxNodes, t, t, b, budget, mp, price.value);
      }
    }
  }

  /** Once cost can be evaluated, adding a constraint to an objective never adds nodes. */
  lemma ExtraConstraintNeverMoreNodes(defaultNodes: int, backend: Backend, obj: Objective, mp: ModelParams, ch: real)
    requires obj.maxNodes >= 2 && CostGrows(mp, ch)
    requires obj.targetTime.Parsed? && obj.maxCost.Parsed?
    ensures var both := Choose(defaultNodes, backend, obj, mp, Some(ch));
            var timeOnly := Choose(defaultNodes, backend, obj.(maxCost := Unset), mp, Some(ch));
            var costOnly := Choose(defaultNodes, backend, obj.(targetTime := Unset), mp, Some(ch));
            && both.Ok? && timeOnly.Ok? && costOnly.Ok?
            && both.value.nodes <= timeOnly.value.nodes
            && both.value.nodes <= costOnly.value.nodes
  {
    BothIsMin(obj.maxNodes as int, obj.targetTime.value, obj.maxCost.value, mp, ch);
  }

  // ----- what every answer satisfies

  /** The solver fails exactly when the history is unreadable or a constraint it consults is. */
  lemma SolverFailsIff(defaultNodes: int, backend: Backend, obj: Objective, history: Option<seq<Entry>>,
                       price: Option<real>)
    requires obj.maxNodes >= 2 && Loadable(history)
    requires !(obj.targetTime.Unset? && obj.maxCost.Unset?)
    ensures var r := Solve(defaultNodes, backend, obj, history, price);
            var unusable := obj.targetTime.Malformed? || (price.Some? && obj.maxCost.Malformed?);
            r.Err? <==> history.None? || (history.value != [] && unusable)
  {
  }

  /** The solver falls back on a calibration run: there is no history, or only a budget that cannot be evaluated. */
  predicate Calibrates(obj: Objective, history: Option<seq<Entry>>, price: Option<real>) {
    history.Some? && (history.value == [] || (price.None? && obj.targetTime.Unset?))
  }

  /** A choice of a model branch lies in [2, maxNodes] and adds up to master and workers for pytorch. */
  lemma ChoiceRange(defaultNodes: int, backend: Backend, obj: Objective, mp: ModelParams, price: Option<real>)
    requires obj.maxNodes >= 2 && mp.alpha >= 0.0 && !(price.None? && obj.targetTime.Unset?)
    ensures var r := Choose(defaultNodes, backend, obj, mp, price);
            r.Ok? ==>
              && 2 <= r.value.nodes <= obj.maxNodes as int
              && (backend.PyTorch? ==> r.value.masterReplicas == 1 && r.value.workerReplicas == r.value.nodes - 1)
              && (!backend.PyTorch? ==> r.value.masterReplicas == 0 && r.value.workerReplicas == 0)
  {
  }

  /**
   A calibration run has the default node count whatever the cap is, every other answer lies
   in [2, maxNodes]; so the cap is exceeded exactly by a calibration run with a larger default.
   */
  lemma SolverRange(defaultNodes: int, backend: Backend, obj: Objective, history: Option<seq<Entry>>,
                    price: Option<real>)
    requires obj.maxNodes >= 2 && Loadable(history)
    ensures var r := Solve(defaultNodes, backend, obj, history, price);
            r.Ok? ==>
              && (if Calibrates(obj, history, price) then r.value.nodes == defaultNodes
                  else 2 <= r.value.nodes <= obj.maxNodes as int)
              && (r.value.nodes <= obj.maxNodes as int
                  <==> !(Calibrates(obj, history, price) && defaultNodes > obj.maxNodes as int))
              && (backend.PyTorch? ==> r.value.masterReplicas == 1 && r.value.workerReplicas == r.value.nodes - 1)
  {
    if history.Some? && !Calibrates(obj, history, price) {
      ChoiceRange(defaultNodes, backend, obj, EstimatedModel(history.value), price);
    }
  }

  /** Four nodes are scheduled for an objective capped at two. */
  lemma CalibrationExceedsCap(backend: Backend, target: Field, budget: Field, price: Option<real>)
    ensures var obj := Objective(target, budget, 2);
            Solve(4, backend, obj, Some([]), price) == Ok(Topology(4, 1, 3, None, None))
  {
  }

  /** The order in which the history is listed has no effect. */
  lemma SolverIgnoresOrder(defaultNodes: int, backend: Backend, obj: Objective, h1: seq<Entry>, h2: seq<Entry>,
                           price: Option<real>)
    requires obj.maxNodes >= 2 && multiset(h1) == multiset(h2) && Loadable(Some(h1))
    ensures Loadable(Some(h2))
    ensures Solve(defaultNodes, backend, obj, Some(h1), price) == Solve(defaultNodes, backend, obj, Some(h2), price)
  {
    assert |h1| == |multiset(h1)| == |multiset(h2)| == |h2|;
    if h1 != [] {
      EstimateIgnoresOrder(h1, h2);
    }
  }
}

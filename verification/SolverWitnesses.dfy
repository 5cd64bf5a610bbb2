/** Histories that show where the promises of the solver end. */
module SolverWitnesses {
  import opened Common
  import opened ScalingModel
  import opened HistoryFit
  import opened Solver
  import AlphaFit
  import HistoryWriter
  import NodeSearch

  // ----- models of short histories

  lemma OneEntryAverage(e: Entry, fn: Entry -> real)
    ensures Average(MapValues([e], fn)) == fn(e)
  {
    var vals := MapValues([e], fn);
    assert vals[..0] == [];
    assert Sum(vals) == 0.0 + fn(e);
  }

  lemma OneEntryAt(e: Entry)
    ensures At([e], e.nodes) == [e] && Keys([e]) == [e.nodes]
  {
    assert [e][..0] == [];
  }

  /** A single record is fitted without overhead. */
  lemma OneEntryModel(e: Entry)
    requires e.nodes >= 1
    ensures Usable([e])
    ensures EstimatedModel([e])
         == ModelParams(0.0, e.throughput / e.nodes as real, e.totalWork, e.provisioningSeconds)
  {
    OneEntryAt(e);
    OneEntryAverage(e, ThroughputOf);
    OneEntryAverage(e, TotalWorkOf);
    OneEntryAverage(e, ProvisioningOf);
  }

  lemma TwoEntriesAt(e: Entry, f: Entry, n: int)
    requires e.nodes < f.nodes
    ensures At([e, f], n) == if n == e.nodes then [e] else if n == f.nodes then [f] else []
  {
    assert [e, f] == [e] + [f];
    AppendEntry([e], f, n);
    AppendEntry([], e, n);
    assert [] + [e] == [e];
  }

  lemma TwoEntriesKeys(e: Entry, f: Entry)
    requires e.nodes < f.nodes
    ensures Keys([e, f]) == [e.nodes, f.nodes]
  {
    var h := [e, f];
    assert h[0] == e && h[1] == f;
    assert e.nodes in NodeCounts(h) && f.nodes in NodeCounts(h);
    AscendingUnique(Keys(h), [e.nodes, f.nodes]);
  }

  lemma TwoEntriesAverage(e: Entry, f: Entry, fn: Entry -> real)
    ensures Average(MapValues([e, f], fn)) == (fn(e) + fn(f)) / 2.0
  {
    var vals := MapValues([e, f], fn);
    assert vals[..1] == [fn(e)] && [fn(e)][..0] == [];
    assert Sum(vals[..1]) == fn(e);
    assert Sum(vals) == fn(e) + fn(f);
  }

  lemma TwoEntriesModel(e: Entry, f: Entry, mp: ModelParams)
    requires 1 <= e.nodes < f.nodes && e.throughput != 0.0
    requires mp.alpha == AlphaFit.TwoPointAlpha(e.nodes, e.throughput, f.nodes, f.throughput)
    requires mp.pBaseline == e.throughput / e.nodes as real && mp.w == e.totalWork
    requires mp.tProvAvg == (e.provisioningSeconds + f.provisioningSeconds) / 2.0
    ensures Usable([e, f]) && EstimatedModel([e, f]) == mp
  {
    TwoEntriesPoints(e, f);
    TwoEntriesAt(e, f, e.nodes);
    OneEntryAverage(e, TotalWorkOf);
    TwoEntriesAverage(e, f, ProvisioningOf);
  }

  lemma TwoEntriesPoints(e: Entry, f: Entry)
    requires e.nodes < f.nodes
    ensures Keys([e, f]) == [e.nodes, f.nodes]
    ensures AverageAt([e, f], e.nodes, ThroughputOf) == e.throughput
    ensures PointsAt([e, f], [e.nodes, f.nodes])
         == [AlphaFit.Point(e.nodes, e.throughput), AlphaFit.Point(f.nodes, f.throughput)]
  {
    TwoEntriesKeys(e, f);
    TwoEntriesAt(e, f, e.nodes);
    TwoEntriesAt(e, f, f.nodes);
    OneEntryAverage(e, ThroughputOf);
    OneEntryAverage(f, ThroughputOf);
    HistoryWriter.TwoPoints([e, f], [e.nodes, f.nodes]);
  }

  // ----- the time search

  /** One run each on one and on two nodes, the second at two thirds of the throughput of the first. */
  const SLOWER_ON_TWO := [Entry(1, 1.5, 16.0, 24.0, 60.0), Entry(2, 1.0, 24.0, 24.0, 60.0)]

  lemma SlowerOnTwoOverhead()
    ensures AlphaFit.TwoPointAlpha(1, 1.5, 2, 1.0) == 2.0
  {
    var observed := (1.0 / 2.0) / (1.5 / 1.0);
    assert observed == 1.0 / 3.0;
    assert (1.0 - observed) / (observed * 1.0) == 2.0;
  }

  lemma SlowerOnTwoPlausible()
    ensures HistoryWriter.Plausible(SLOWER_ON_TWO)
  {
  }

  lemma SlowerOnTwoModel()
    ensures Usable(SLOWER_ON_TWO) && EstimatedModel(SLOWER_ON_TWO) == ModelParams(2.0, 1.5, 24.0, 60.0)
  {
    SlowerOnTwoOverhead();
    TwoEntriesModel(Entry(1, 1.5, 16.0, 24.0, 60.0), Entry(2, 1.0, 24.0, 24.0, 60.0),
                    ModelParams(2.0, 1.5, 24.0, 60.0));
  }

  lemma SlowerOnTwoTimes()
    ensures PredT(2, ModelParams(2.0, 1.5, 24.0, 60.0)) == 24.0
    ensures PredT(4, ModelParams(2.0, 1.5, 24.0, 60.0)) == 28.0
    ensures PredT(8, ModelParams(2.0, 1.5, 24.0, 60.0)) == 30.0
  {
    var mp := ModelParams(2.0, 1.5, 24.0, 60.0);
    ThroughputForm(2, mp);
    ThroughputForm(4, mp);
    ThroughputForm(8, mp);
    assert PredP(2, mp) == 1.0 && PredP(4, mp) == 6.0 / 7.0 && PredP(8, mp) == 0.8;
  }

  /** Two nodes meet the target of 25 seconds, and all eight are scheduled. */
  lemma MinSearchMissesSmallest(backend: Backend)
    ensures var obj := Objective(Parsed(25.0), Unset, 8);
            && HistoryWriter.Plausible(SLOWER_ON_TWO) && Usable(SLOWER_ON_TWO)
            && PredT(2, EstimatedModel(SLOWER_ON_TWO)) <= 25.0
            && var r := Solve(2, backend, obj, Some(SLOWER_ON_TWO), None);
            && r.Ok? && r.value.nodes == 8
  {
    SlowerOnTwoPlausible();
    SlowerOnTwoModel();
    SlowerOnTwoTimes();
    AllEightChosen(backend, ModelParams(2.0, 1.5, 24.0, 60.0));
  }

  lemma AllEightChosen(backend: Backend, mp: ModelParams)
    requires mp.alpha >= 0.0 && PredT(8, mp) > 25.0
    ensures var r := Choose(2, backend, Objective(Parsed(25.0), Unset, 8), mp, None);
            r.Ok? && r.value.nodes == 8
  {
    assert NodeSearch.TimeNodes(2, 8, 25.0, mp) == 8;
  }

  // ----- time and cost together

  lemma SlowerOnTwoCosts(n: int)
    requires n >= 1
    ensures PredCost(n, ModelParams(2.0, 1.5, 24.0, 60.0), 1.0) == (92.0 * n as real - 16.0) / 3600.0
  {
    var mp := ModelParams(2.0, 1.5, 24.0, 60.0);
    CostForm(n, mp, 1.0);
    assert TimeShare(mp) == -16.0 && TimeFloor(mp) == 32.0;
    assert CostBase(mp, 1.0) == -16.0 / 3600.0 && CostSlope(mp, 1.0) == 92.0 / 3600.0;
  }

  lemma FourAffordable(mp: ModelParams)
    requires CostGrows(mp, 1.0)
    requires PredCost(2, mp, 1.0) <= 0.1 && PredCost(4, mp, 1.0) <= 0.1 < PredCost(5, mp, 1.0)
    ensures NodeSearch.BudgetNodes(2, 8, 0.1, mp, 1.0) == 4
  {
    NodeSearch.MaxSearchCorrect(2, 8, 0.1, mp, 1.0);
    var r := NodeSearch.BudgetNodes(2, 8, 0.1, mp, 1.0);
    assert PredCost(4, mp, 1.0) <= 0.1 <==> 4 <= r;
    assert PredCost(5, mp, 1.0) <= 0.1 <==> 5 <= r;
  }

  /** A conflict is reported although two nodes meet both constraints; four are scheduled and miss the target. */
  lemma FalseConflict(backend: Backend)
    ensures var obj := Objective(Parsed(25.0), Parsed(0.1), 8);
            && HistoryWriter.Plausible(SLOWER_ON_TWO) && Usable(SLOWER_ON_TWO)
            && var mp := EstimatedModel(SLOWER_ON_TWO);
            && MeetsBoth(2, 25.0, 0.1, mp, 1.0) && !ConflictIsReal(8, 25.0, 0.1, mp, 1.0)
            && var r := Solve(2, backend, obj, Some(SLOWER_ON_TWO), Some(1.0));
            && r.Ok? && r.value.nodes == 4 && PredT(4, mp) == 28.0
  {
    SlowerOnTwoPlausible();
    SlowerOnTwoModel();
    SlowerOnTwoTimes();
    SlowerOnTwoCosts(2);
    SlowerOnTwoCosts(4);
    SlowerOnTwoCosts(5);
    SlowerOnTwoCosts(8);
    var mp := ModelParams(2.0, 1.5, 24.0, 60.0);
    FourAffordable(mp);
    ConflictIsRealIff(8, 25.0, 0.1, mp, 1.0);
    FourChosen(backend, mp);
  }

  lemma FourChosen(backend: Backend, mp: ModelParams)
    requires mp.alpha >= 0.0 && PredT(8, mp) > 25.0 && PredCost(8, mp, 1.0) > 0.1
    requires NodeSearch.BudgetNodes(2, 8, 0.1, mp, 1.0) == 4
    ensures var r := Choose(2, backend, Objective(Parsed(25.0), Parsed(0.1), 8), mp, Some(1.0));
            r.Ok? && r.value.nodes == 4
  {
    assert NodeSearch.TimeNodes(2, 8, 25.0, mp) == 8;
  }

  // ----- the reference time

  /** One run each on two and on four nodes, the second half as fast again as the first. */
  const SUBLINEAR := [Entry(2, 2.0, 60.0, 120.0, 60.0), Entry(4, 3.0, 40.0, 120.0, 60.0)]

  lemma SublinearOverhead()
    ensures AlphaFit.TwoPointAlpha(2, 2.0, 4, 3.0) == 1.0 / 9.0
  {
    var observed := (3.0 / 4.0) / (2.0 / 2.0);
    assert observed == 0.75;
    assert (1.0 - observed) / (observed * 3.0) == 1.0 / 9.0;
  }

  lemma SublinearModel()
    ensures Usable(SUBLINEAR) && EstimatedModel(SUBLINEAR) == ModelParams(1.0 / 9.0, 1.0, 120.0, 60.0)
  {
    SublinearOverhead();
    TwoEntriesModel(Entry(2, 2.0, 60.0, 120.0, 60.0), Entry(4, 3.0, 40.0, 120.0, 60.0),
                    ModelParams(1.0 / 9.0, 1.0, 120.0, 60.0));
  }

  lemma SublinearTime()
    ensures 66.6 < PredT(2, ModelParams(1.0 / 9.0, 1.0, 120.0, 60.0)) < 66.7
  {
    var mp := ModelParams(1.0 / 9.0, 1.0, 120.0, 60.0);
    ThroughputForm(2, mp);
    assert PredP(2, mp) == 1.8;
    assert PredT(2, mp) == 120.0 / 1.8;
  }

  /** The only run on two nodes took a minute; for two nodes more than 66 seconds are predicted. */
  lemma ReferenceTimeMissed()
    ensures HistoryWriter.Plausible(SUBLINEAR) && Usable(SUBLINEAR)
    ensures Keys(SUBLINEAR)[0] == 2 && At(SUBLINEAR, 2) == [Entry(2, 2.0, 60.0, 120.0, 60.0)]
    ensures 66.6 < PredT(2, EstimatedModel(SUBLINEAR)) < 66.7
  {
    var e, f := Entry(2, 2.0, 60.0, 120.0, 60.0), Entry(4, 3.0, 40.0, 120.0, 60.0);
    TwoEntriesKeys(e, f);
    TwoEntriesAt(e, f, 2);
    SublinearModel();
    SublinearTime();
  }

  // ----- the cost curve

  /** At a price of zero all node counts cost the same. */
  lemma FreeNodesCostTheSame(i: int, j: int)
    requires 1 <= i < j
    ensures HistoryWriter.Plausible(LONG_RUN) && Usable(LONG_RUN)
    ensures PredCost(i, EstimatedModel(LONG_RUN), 0.0) == PredCost(j, EstimatedModel(LONG_RUN), 0.0)
  {
    LongRunModel();
    CostAffine(i, j, EstimatedModel(LONG_RUN), 0.0);
    assert CostSlope(EstimatedModel(LONG_RUN), 0.0) == 0.0;
  }

  // ----- the flat cost curve

  /** One long run on two nodes, a million node-seconds after a minute of provisioning. */
  const LONG_RUN := [Entry(2, 2.0, 500000.0, 1000000.0, 60.0)]

  lemma LongRunModel()
    ensures HistoryWriter.Plausible(LONG_RUN) && Usable(LONG_RUN)
    ensures EstimatedModel(LONG_RUN) == ModelParams(0.0, 1.0, 1000000.0, 60.0)
  {
    OneEntryModel(LONG_RUN[0]);
  }

  lemma LongRunCost(n: int)
    requires n >= 1
    ensures PredCost(n, ModelParams(0.0, 1.0, 1000000.0, 60.0), 1.0) == (1000000.0 + 60.0 * n as real) / 3600.0
  {
    var mp := ModelParams(0.0, 1.0, 1000000.0, 60.0);
    CostForm(n, mp, 1.0);
    assert TimeShare(mp) == 1000000.0 && TimeFloor(mp) == 0.0;
    assert CostBase(mp, 1.0) == 1000000.0 / 3600.0 && CostSlope(mp, 1.0) == 60.0 / 3600.0;
  }

  /** Within a budget of 277.82 two nodes cost 277.81; sixty-four nodes are scheduled, for more than 278. */
  lemma FlatCostOvershoots(backend: Backend)
    ensures var obj := Objective(Unset, Parsed(277.82), 64);
            && Usable(LONG_RUN) && PredCost(2, EstimatedModel(LONG_RUN), 1.0) <= 277.82
            && var r := Solve(2, backend, obj, Some(LONG_RUN), Some(1.0));
            && r.Ok? && r.value.nodes == 64 && r.value.estimatedCost.Some? && r.value.estimatedCost.value > 278.8
  {
    LongRunModel();
    LongRunCost(2);
    LongRunCost(64);
    var mp := ModelParams(0.0, 1.0, 1000000.0, 60.0);
    assert IsFlatCost(mp, 1.0, 64) by {
      var c2, c64 := PredCost(2, mp, 1.0), PredCost(64, mp, 1.0);
      assert c2 == 1000120.0 / 3600.0 && c64 == 1003840.0 / 3600.0;
      var ratio := (c64 - c2) / c2;
      assert ratio * c2 == c64 - c2 < 0.01 * c2;
      SignOfProduct(ratio - 0.01, c2);
    }
    assert CostNodes(64, 277.82, mp, 1.0) == 64;
  }
}

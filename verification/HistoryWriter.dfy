/** What a completed run contributes to the history. */
module HistoryWriter {
  import opened Common
  import opened ScalingModel
  import opened HistoryFit
  import opened Solver
  import AlphaFit
  import NodeSearch

  /** The collected metrics a backend may report: total samples or records, and an inner-loop rate. */
  datatype Metrics = Metrics(total: Field, rate: Field)

  /** P_k: work per second over the whole run when the total is known, else the reported rate. */
  function ExtractThroughput(backend: Backend, metrics: Option<Metrics>, tk: real): Option<real> {
    if metrics.None? then None
    else
      var m := metrics.value;
      if (backend.PyTorch? || backend.Spark?) && tk > 0.0 && m.total.Parsed? && m.total.value > 0.0
      then Some(m.total.value / tk)
      else if (backend.PyTorch? || backend.Spark?) && m.rate.Parsed? then Some(m.rate.value)
      else None
  }

  /** The record of a run, or nothing when the run is not usable. */
  function HistoryEntry(backend: Backend, trainingTime: Field, provisioningTime: Field,
                        metrics: Option<Metrics>, nodes: int): Option<Entry> {
    if backend.PlainJob? || !trainingTime.Parsed? then None
    else
      var tk := trainingTime.value;
      var pk := ExtractThroughput(backend, metrics, tk);
      if pk.None? || pk.value == 0.0 || nodes == 0 then None
      else
        var tProvision := if provisioningTime.Parsed? then provisioningTime.value else 0.0;
        Some(Entry(nodes, pk.value, tk, tk * pk.value, tProvision))
  }

  /** The backends whose runs are recorded report work, and a rate. */
  predicate Reports(backend: Backend) {
    backend.PyTorch? || backend.Spark?
  }

  /**
   A record carries the node count and the times as they were measured, a provisioning time of 0 when
   there is none. Its work is the reported total, or else the time at the reported rate; its throughput
   is work per second, and never zero.
   */
  lemma EntryFacts(backend: Backend, trainingTime: Field, provisioningTime: Field, metrics: Option<Metrics>, nodes: int)
    ensures var r := HistoryEntry(backend, trainingTime, provisioningTime, metrics, nodes);
            r.Some? ==>
              && r.value.nodes == nodes != 0 && Parsed(r.value.trainingSeconds) == trainingTime
              && r.value.provisioningSeconds == (if provisioningTime.Parsed? then provisioningTime.value else 0.0)
              && r.value.throughput != 0.0 && metrics.Some?
              && r.value.totalWork == r.value.trainingSeconds * r.value.throughput
              && (if Totals(metrics.value, r.value.trainingSeconds)
                  then r.value.totalWork == metrics.value.total.value && r.value.throughput > 0.0
                  else metrics.value.rate == Parsed(r.value.throughput))
  {
    var r := HistoryEntry(backend, trainingTime, provisioningTime, metrics, nodes);
    if r.Some? && Totals(metrics.value, r.value.trainingSeconds) {
      var tk, total := r.value.trainingSeconds, metrics.value.total.value;
      var pk := total / tk;
      assert pk * tk == total;
      SignOfProduct(-pk, tk);
    }
  }

  /** The total work is known, and some time was spent on it. */
  predicate Totals(m: Metrics, tk: real) {
    tk > 0.0 && m.total.Parsed? && m.total.value > 0.0
  }

  /**
   A run is recorded exactly when it ran on some nodes for a known time and its backend reports the
   work it did, or else a rate that is not zero.
   */
  lemma RecordedIff(backend: Backend, trainingTime: Field, provisioningTime: Field, metrics: Option<Metrics>,
                    nodes: int)
    ensures HistoryEntry(backend, trainingTime, provisioningTime, metrics, nodes).Some?
       <==> && Reports(backend) && trainingTime.Parsed? && nodes != 0 && metrics.Some?
            && (Totals(metrics.value, trainingTime.value)
                || (metrics.value.rate.Parsed? && metrics.value.rate.value != 0.0))
  {
    if trainingTime.Parsed? && metrics.Some? && Totals(metrics.value, trainingTime.value) {
      PositiveQuotient(metrics.value.total.value, trainingTime.value);
    }
  }

  /** A history as runs that report a positive rate leave it. */
  ghost predicate Plausible(h: seq<Entry>) {
    forall e | e in h ::
      && e.nodes >= 1 && e.throughput > 0.0
      && e.trainingSeconds >= 0.0 && e.totalWork == e.trainingSeconds * e.throughput
      && e.provisioningSeconds >= 0.0
  }

  lemma {:induction false} SumNonNegative(vals: seq<real>)
    requires forall i | 0 <= i < |vals| :: vals[i] >= 0.0
    ensures Sum(vals) >= 0.0
    ensures (exists i | 0 <= i < |vals| :: vals[i] > 0.0) ==> Sum(vals) > 0.0
  {
    if vals != [] {
      var init := vals[..|vals| - 1];
      SumNonNegative(init);
      if i :| 0 <= i < |vals| && vals[i] > 0.0 {
        assert i < |init| ==> init[i] > 0.0;
      }
    }
  }

  lemma AverageNonNegative(vals: seq<real>)
    requires forall i | 0 <= i < |vals| :: vals[i] >= 0.0
    ensures Average(vals) >= 0.0
    ensures vals != [] && vals[0] > 0.0 ==> Average(vals) > 0.0
  {
    SumNonNegative(vals);
    if vals != [] {
      var avg, k := Average(vals), |vals| as real;
      assert avg * k == Sum(vals);
      SignOfProduct(-avg, k);
      SignOfProduct(avg, k);
    }
  }

  lemma AverageOfEntries(entries: seq<Entry>, fn: Entry -> real)
    requires forall e | e in entries :: fn(e) >= 0.0
    ensures Average(MapValues(entries, fn)) >= 0.0
    ensures entries != [] && fn(entries[0]) > 0.0 ==> Average(MapValues(entries, fn)) > 0.0
  {
    assert forall i | 0 <= i < |entries| :: entries[i] in entries;
    AverageNonNegative(MapValues(entries, fn));
  }

  lemma ReferenceAverages(h: seq<Entry>, n: int)
    requires Plausible(h) && n in NodeCounts(h)
    ensures n >= 1 && AverageAt(h, n, ThroughputOf) > 0.0 && AverageAt(h, n, TotalWorkOf) >= 0.0
  {
    var entries := At(h, n);
    assert entries[0] in entries;
    forall e | e in entries
      ensures TotalWorkOf(e) >= 0.0 && ThroughputOf(e) > 0.0
    {
      assert e in h;
    }
    AverageOfEntries(entries, ThroughputOf);
    AverageOfEntries(entries, TotalWorkOf);
  }

  /**
   Such a history can always be fitted, with a positive baseline and signs under which cost
   never falls as nodes are added: the conditions the solver's guarantees rest on.
   */
  lemma PlausibleHistoryFits(h: seq<Entry>, ch: real)
    requires h != [] && Plausible(h) && ch >= 0.0
    ensures Usable(h)
    ensures var mp := EstimatedModel(h); mp.pBaseline > 0.0 && CostGrows(mp, ch)
  {
    PlausibleReference(h);
    AverageOfEntries(h, ProvisioningOf);
    PositiveQuotient(AverageAt(h, Keys(h)[0], ThroughputOf), Keys(h)[0] as real);
  }

  lemma PlausibleReference(h: seq<Entry>)
    requires h != [] && Plausible(h)
    ensures Usable(h) && Keys(h)[0] >= 1
    ensures AverageAt(h, Keys(h)[0], ThroughputOf) > 0.0 && AverageAt(h, Keys(h)[0], TotalWorkOf) >= 0.0
  {
    assert h[0].nodes in NodeCounts(h);
    var keys := Keys(h);
    assert h[0].nodes in keys;
    assert keys[0] in keys;
    ReferenceAverages(h, keys[0]);
  }

  lemma PositiveQuotient(x: real, y: real)
    requires x > 0.0 && y > 0.0
    ensures x / y > 0.0
  {
    var q := x / y;
    assert q * y == x;
    SignOfProduct(-q, y);
  }

  /**
   With three or more recorded node counts the fitted time strictly falls with every node,
   so the time search always finds the smallest node count that meets the target.
   */
  lemma ThreeCountsSearchExact(h: seq<Entry>, maxNodes: int, target: real)
    requires h != [] && Plausible(h) && |Keys(h)| >= 3 && maxNodes >= 2
    ensures Usable(h)
    ensures var mp := EstimatedModel(h);
            && (mp.w > 0.0 ==> forall i, j | 1 <= i < j :: PredT(j, mp) < PredT(i, mp))
            && NodeSearch.TimeNodes(2, maxNodes, target, mp) == NodeSearch.SmallestMeeting(2, maxNodes, target, mp)
  {
    PlausibleHistoryFits(h, 0.0);
    var mp := EstimatedModel(h);
    PointsAscending(h);
    AlphaFit.SearchedAlphaInside(PointsAt(h, Keys(h)), mp.pBaseline);
    if mp.w > 0.0 {
      forall i, j | 1 <= i < j
        ensures PredT(j, mp) < PredT(i, mp)
      {
        TimeStrictlyDecreasing(i, j, mp);
      }
    }
    NodeSearch.MinSearchCorrect(2, maxNodes, target, mp);
  }

  /** The predicted time lies in [lo, hi] stretched by 1 + alpha * (n - 1), which is at least 1. */
  ghost predicate WithinStretched(n: int, mp: ModelParams, lo: real, hi: real)
    requires n >= 1 && mp.alpha >= 0.0
  {
    var s := 1.0 + mp.alpha * (n as real - 1.0);
    s >= 1.0 && lo * s <= PredT(n, mp) <= hi * s && (n == 1 || mp.alpha == 0.0 ==> s == 1.0)
  }

  lemma StretchedMean(n: int, mp: ModelParams, mean: real, lo: real, hi: real)
    requires n >= 1 && mp.alpha >= 0.0 && lo <= mean <= hi && Stretches(n, mp, mean)
    ensures WithinStretched(n, mp, lo, hi)
  {
    var k := mp.alpha * (n as real - 1.0);
    assert k >= 0.0;
    StretchBounds(PredT(n, mp), mean, k, lo, hi);
  }

  lemma StretchBounds(t: real, mean: real, k: real, lo: real, hi: real)
    requires t == mean * (1.0 + k) && k >= 0.0 && lo <= mean <= hi
    ensures lo * (1.0 + k) <= t <= hi * (1.0 + k)
  {
    assert (mean - lo) * k >= 0.0 && (hi - mean) * k >= 0.0;
  }

  lemma ReferenceRuns(h: seq<Entry>, n: int, lo: real, hi: real)
    requires Plausible(h) && n in NodeCounts(h)
    requires forall e | e in h && e.nodes == n :: lo <= e.trainingSeconds <= hi
    ensures var runs := At(h, n);
            SumOf(runs, ThroughputOf) > 0.0 && lo <= WeightedTime(runs) <= hi
  {
    var runs := At(h, n);
    forall i | 0 <= i < |runs|
      ensures runs[i] in h && runs[i].nodes == n
    {
      assert runs[i] in runs;
    }
    WeightedTimeWithinRuns(runs, lo, hi);
  }

  /**
   At the smallest recorded node count the predicted time lies between the shortest and the
   longest run recorded there, both stretched alike, and not stretched for a single node or alpha = 0.
   */
  lemma ReferenceWithinRuns(h: seq<Entry>, lo: real, hi: real)
    requires h != [] && Plausible(h)
    requires forall e | e in h && e.nodes == Keys(h)[0] :: lo <= e.trainingSeconds <= hi
    ensures Usable(h) && Keys(h)[0] >= 1
    ensures WithinStretched(Keys(h)[0], EstimatedModel(h), lo, hi)
  {
    PlausibleReference(h);
    var n := Keys(h)[0];
    assert n in Keys(h);
    ReferenceRuns(h, n, lo, hi);
    ReferenceTime(h);
    StretchedMean(n, EstimatedModel(h), WeightedTime(At(h, n)), lo, hi);
  }

  // ----- when the fitted time is monotone

  /** The second smallest count achieves less in all than a single node's share at the smallest. */
  predicate SecondCountFallsShort(h: seq<Entry>) {
    && |Keys(h)| == 2 && Keys(h)[0] != 0
    && AverageAt(h, Keys(h)[1], ThroughputOf) < AverageAt(h, Keys(h)[0], ThroughputOf) / Keys(h)[0] as real
  }

  /** The fitted overhead exceeds 1 in one case only: two node counts, the larger one falling short. */
  lemma OverheadAboveOneIff(h: seq<Entry>)
    requires h != [] && Plausible(h)
    ensures Usable(h) && (EstimatedModel(h).alpha > 1.0 <==> SecondCountFallsShort(h))
  {
    PlausibleReference(h);
    var keys, mp := Keys(h), EstimatedModel(h);
    PointsAscending(h);
    if |keys| >= 3 {
      AlphaFit.SearchedAlphaInside(PointsAt(h, keys), mp.pBaseline);
    } else if |keys| == 2 {
      assert keys[0] in keys && keys[1] in keys;
      ReferenceAverages(h, keys[0]);
      ReferenceAverages(h, keys[1]);
      TwoPoints(h, keys);
      AlphaFit.TwoPointFit(keys[0], AverageAt(h, keys[0], ThroughputOf), keys[1], AverageAt(h, keys[1], ThroughputOf));
    }
  }

  lemma TwoPoints(h: seq<Entry>, keys: seq<int>)
    requires |keys| == 2
    ensures PointsAt(h, keys) == [PointAt(h, keys[0]), PointAt(h, keys[1])]
  {
    assert keys[..1][..0] == [];
  }

  /**
   For every history of positive records the fitted time is non-increasing, as documented,
   except when just two node counts are recorded, the larger falls short, and there is work.
   */
  lemma FittedTimeNonIncreasingIff(h: seq<Entry>, maxNodes: int)
    requires h != [] && Plausible(h) && maxNodes > 2
    ensures Usable(h)
    ensures TimeNonIncreasing(EstimatedModel(h), maxNodes)
       <==> !(SecondCountFallsShort(h) && EstimatedModel(h).w > 0.0)
  {
    OverheadAboveOneIff(h);
    PlausibleHistoryFits(h, 0.0);
    var mp := EstimatedModel(h);
    if mp.w > 0.0 {
      TimeNonIncreasingIff(mp, maxNodes);
    } else {
      NoWorkNonIncreasing(mp, maxNodes);
    }
  }

  lemma NoWorkNonIncreasing(mp: ModelParams, maxNodes: int)
    requires mp.alpha >= 0.0 && mp.pBaseline > 0.0 && mp.w == 0.0
    ensures TimeNonIncreasing(mp, maxNodes)
  {
    forall i, j | 2 <= i <= j <= maxNodes
      ensures PredT(j, mp) <= PredT(i, mp)
    {
      if i < j {
        TimeOrder(i, j, mp);
      }
    }
  }

  /** And then the time search misses its documented answer exactly for the targets in between. */
  lemma FittedSearchCorrectIff(h: seq<Entry>, maxNodes: int, target: real)
    requires h != [] && Plausible(h) && maxNodes >= 2
    ensures Usable(h)
    ensures var mp := EstimatedModel(h);
            && (NodeSearch.TimeNodes(2, maxNodes, target, mp) == NodeSearch.SmallestMeeting(2, maxNodes, target, mp)
                <==> !(PredT(2, mp) <= target < PredT(maxNodes, mp)))
            && (!SecondCountFallsShort(h) ==> !(PredT(2, mp) <= target < PredT(maxNodes, mp)))
  {
    PlausibleHistoryFits(h, 0.0);
    var mp := EstimatedModel(h);
    NodeSearch.MinSearchCorrectIff(2, maxNodes, target, mp);
    if maxNodes > 2 {
      FittedTimeNonIncreasingIff(h, maxNodes);
    }
  }

  /** So without that case the combined search finds the smallest node count meeting both constraints. */
  lemma FittedBothSmallest(h: seq<Entry>, maxNodes: int, target: real, budget: real, ch: real)
    requires h != [] && Plausible(h) && maxNodes >= 2 && ch >= 0.0
    ensures Usable(h)
    ensures var mp := EstimatedModel(h);
            var misled := PredT(2, mp) <= target < PredT(maxNodes, mp);
            && (SmallestForBoth(BothNodes(maxNodes, target, budget, mp, ch), maxNodes, target, budget, mp, ch)
                <==> !(misled && PredCost(3, mp, ch) <= budget))
            && (ConflictIsReal(maxNodes, target, budget, mp, ch)
                <==> !(misled && PredCost(2, mp, ch) <= budget < PredCost(maxNodes, mp, ch)))
            && (!SecondCountFallsShort(h) ==> !misled)
  {
    PlausibleHistoryFits(h, ch);
    var mp := EstimatedModel(h);
    BothSmallestIff(maxNodes, target, budget, mp, ch);
    ConflictIsRealIff(maxNodes, target, budget, mp, ch);
    FittedSearchCorrectIff(h, maxNodes, target);
  }

  // ----- when the fit has no overhead

  /** n2 nodes achieve at least n2 times a single node's share of what n1 achieve. */
  predicate LinearShare(n1: int, avgP1: real, n2: int, avgP2: real)
    requires n1 != 0
  {
    avgP2 >= avgP1 / n1 as real * n2 as real
  }

  /** One node count, or two of which the larger achieves at least its linear share. */
  predicate ScalesLinearly(h: seq<Entry>) {
    || |Keys(h)| == 1
    || (&& |Keys(h)| == 2 && Keys(h)[0] != 0
        && LinearShare(Keys(h)[0], AverageAt(h, Keys(h)[0], ThroughputOf),
                       Keys(h)[1], AverageAt(h, Keys(h)[1], ThroughputOf)))
  }

  lemma TwoPointZeroIff(n1: int, avgP1: real, n2: int, avgP2: real)
    requires 1 <= n1 < n2 && avgP1 > 0.0 && avgP2 > 0.0
    ensures AlphaFit.TwoPointAlpha(n1, avgP1, n2, avgP2) == 0.0 <==> LinearShare(n1, avgP1, n2, avgP2)
  {
    var alpha, pBaseline := AlphaFit.TwoPointAlpha(n1, avgP1, n2, avgP2), avgP1 / n1 as real;
    AlphaFit.TwoPointFit(n1, avgP1, n2, avgP2);
    PositiveQuotient(avgP1, n1 as real);
    assert AlphaFit.Predicted(n2, pBaseline, alpha)
        == if avgP2 <= pBaseline * n2 as real then avgP2 else pBaseline * n2 as real;
    assert pBaseline > 0.0 && alpha >= 0.0;
    ZeroFromFit(n2, pBaseline, alpha, avgP2);
  }

  lemma ZeroFromFit(n2: int, pBaseline: real, alpha: real, avgP2: real)
    requires n2 >= 2 && pBaseline > 0.0 && alpha >= 0.0
    requires AlphaFit.Predicted(n2, pBaseline, alpha)
          == if avgP2 <= pBaseline * n2 as real then avgP2 else pBaseline * n2 as real
    ensures alpha == 0.0 <==> avgP2 >= pBaseline * n2 as real
  {
    var linear := pBaseline * n2 as real;
    assert linear > 0.0 by {
      SignOfProduct(-pBaseline, n2 as real);
      assert (-pBaseline) * n2 as real == -linear;
    }
    AlphaFit.PredictedForm(n2, pBaseline, alpha);
    var extra, predicted := (n2 - 1) as real, AlphaFit.Predicted(n2, pBaseline, alpha);
    assert predicted * (1.0 + alpha * extra) == linear;
    NoStretch(linear, predicted, alpha, extra);
  }

  lemma NoStretch(linear: real, predicted: real, alpha: real, extra: real)
    requires linear > 0.0 && extra > 0.0 && alpha >= 0.0
    requires predicted * (1.0 + alpha * extra) == linear
    ensures predicted == linear <==> alpha == 0.0
  {
    if alpha > 0.0 {
      SignOfProduct(alpha, extra);
      SignOfProduct(-alpha, extra);
      var k := alpha * extra;
      assert k > 0.0;
      SignOfProduct(-k, linear);
      assert linear * (1.0 + k) == linear + linear * k > linear;
    }
  }

  lemma TwoCountsZeroIff(h: seq<Entry>)
    requires h != [] && Plausible(h) && |Keys(h)| == 2
    ensures Usable(h) && (EstimatedModel(h).alpha == 0.0 <==> ScalesLinearly(h))
  {
    PlausibleReference(h);
    var keys := Keys(h);
    assert keys[0] in keys && keys[1] in keys;
    ReferenceAverages(h, keys[0]);
    ReferenceAverages(h, keys[1]);
    TwoPoints(h, keys);
    TwoPointZeroIff(keys[0], AverageAt(h, keys[0], ThroughputOf), keys[1], AverageAt(h, keys[1], ThroughputOf));
  }

  /** A history of positive records is fitted without overhead exactly when it scales linearly. */
  lemma NoOverheadIff(h: seq<Entry>)
    requires h != [] && Plausible(h)
    ensures Usable(h) && (EstimatedModel(h).alpha == 0.0 <==> ScalesLinearly(h))
  {
    PlausibleReference(h);
    if |Keys(h)| >= 3 {
      PointsAscending(h);
      AlphaFit.SearchedAlphaInside(PointsAt(h, Keys(h)), EstimatedModel(h).pBaseline);
    } else if |Keys(h)| == 2 {
      TwoCountsZeroIff(h);
    }
  }

  /**
   The model reproduces the mean time recorded at the smallest node count, as documented,
   exactly when that is a single node, or the mean is 0, or the history scales linearly.
   */
  lemma ReferenceReproducedIff(h: seq<Entry>)
    requires h != [] && Plausible(h)
    ensures Usable(h) && Keys(h)[0] >= 1 && SumOf(At(h, Keys(h)[0]), ThroughputOf) > 0.0
    ensures var n, mean := Keys(h)[0], WeightedTime(At(h, Keys(h)[0]));
            PredT(n, EstimatedModel(h)) == mean <==> n == 1 || mean == 0.0 || ScalesLinearly(h)
  {
    PlausibleReference(h);
    var n := Keys(h)[0];
    assert n in Keys(h);
    PositiveThroughput(h, n);
    ReferenceTime(h);
    NoOverheadIff(h);
  }

  lemma PositiveThroughput(h: seq<Entry>, n: int)
    requires Plausible(h) && n in NodeCounts(h)
    ensures SumOf(At(h, n), ThroughputOf) > 0.0
  {
    var runs := At(h, n);
    assert runs[0] in runs;
    forall i | 0 <= i < |runs|
      ensures MapValues(runs, ThroughputOf)[i] > 0.0
    {
      assert runs[i] in runs;
    }
    SumNonNegative(MapValues(runs, ThroughputOf));
    assert MapValues(runs, ThroughputOf)[0] > 0.0;
  }

  /** Some run was recorded with a provisioning time. */
  predicate TimedProvisioning(h: seq<Entry>) {
    exists e | e in h :: e.provisioningSeconds > 0.0
  }

  lemma AverageSign(vals: seq<real>)
    requires vals != []
    ensures Average(vals) > 0.0 <==> Sum(vals) > 0.0
  {
    var avg, k := Average(vals), |vals| as real;
    assert avg * k == Sum(vals);
    SignOfProduct(avg, k);
  }

  lemma ProvisioningAverage(h: seq<Entry>)
    requires h != [] && Plausible(h)
    ensures Average(MapValues(h, ProvisioningOf)) > 0.0 <==> TimedProvisioning(h)
  {
    var vals := MapValues(h, ProvisioningOf);
    AverageSign(vals);
    forall i | 0 <= i < |vals|
      ensures vals[i] == h[i].provisioningSeconds >= 0.0 && h[i] in h
    {
    }
    if TimedProvisioning(h) {
      var e :| e in h && e.provisioningSeconds > 0.0;
      var i :| 0 <= i < |h| && h[i] == e;
      assert vals[i] > 0.0;
      SumNonNegative(vals);
    } else {
      ZeroSum(vals);
    }
  }

  lemma {:induction false} ZeroSum(vals: seq<real>)
    requires forall i | 0 <= i < |vals| :: vals[i] == 0.0
    ensures Sum(vals) == 0.0
  {
    if vals != [] {
      ZeroSum(vals[..|vals| - 1]);
    }
  }

  /**
   For every history of positive records the cost strictly rises with the nodes, as documented,
   exactly when nodes have a price and there is work that does not scale linearly, or a run that
   was recorded with a provisioning time.
   */
  lemma FittedCostStrictlyIncreasingIff(h: seq<Entry>, i: int, j: int, ch: real)
    requires h != [] && Plausible(h) && ch >= 0.0 && 1 <= i < j
    ensures Usable(h)
    ensures var mp := EstimatedModel(h);
            PredCost(i, mp, ch) < PredCost(j, mp, ch)
            <==> ch > 0.0 && ((mp.w > 0.0 && !ScalesLinearly(h)) || TimedProvisioning(h))
  {
    PlausibleHistoryFits(h, ch);
    NoOverheadIff(h);
    ProvisioningAverage(h);
    CostStrictlyIncreasingIff(i, j, EstimatedModel(h), ch);
  }

  // ----- how close the search comes

  /** lo and hi enclose the best fit of every recorded node count on its own. */
  ghost predicate EnclosesFits(h: seq<Entry>, lo: real, hi: real)
    requires Usable(h)
  {
    forall n | n in Keys(h) && n >= 2 && AverageAt(h, n, ThroughputOf) > 0.0 ::
      lo <= AlphaFit.BestFit(PointAt(h, n), EstimatedModel(h).pBaseline) <= hi
  }

  /** The overhead fitted to three or more node counts lies among the best fits of the single ones, up to 5e-7. */
  lemma FittedNearBestFits(h: seq<Entry>, lo: real, hi: real)
    requires h != [] && Plausible(h) && |Keys(h)| >= 3
    requires Usable(h) && EnclosesFits(h, lo, hi)
    ensures lo - 0.0000005 <= EstimatedModel(h).alpha <= hi + 0.0000005
  {
    PlausibleHistoryFits(h, 0.0);
    var keys, points, mp := Keys(h), PointsAt(h, Keys(h)), EstimatedModel(h);
    PointsAscending(h);
    PointsAre(h, keys);
    forall i | 0 <= i < |keys|
      ensures points[i] == PointAt(h, keys[i]) && points[i].avgP > 0.0
      ensures points[i].n >= 2 ==> lo <= AlphaFit.BestFit(points[i], mp.pBaseline) <= hi
    {
      assert keys[i] in keys;
      ReferenceAverages(h, keys[i]);
    }
    AlphaFit.SearchNearBestFits(points, mp.pBaseline, lo, hi);
  }
}

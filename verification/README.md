# Distributed training operator: solver and lifecycle

A Dafny model of the two parts of the operator that decide what a training job costs and what it
leaves behind, with proofs of what they promise.

**The topology solver.** Past runs are grouped by node count and an overhead α is fitted to their
average throughputs. The fitted model predicts the time T(n) and the cost of a run on n nodes, and
two binary searches pick a node count for a time target, a budget, or both.

| file | what it covers |
|---|---|
| `ScalingModel.dfy` | T(n), Cost(n), the flat-cost test, and the directions in which they move |
| `NodeSearch.dfy` | the two binary searches as loops over int32, against linear scans |
| `GoldenSection.dfy` | the golden-section loop |
| `AlphaFit.dfy` | the two-point formula and the residual sum that is searched |
| `HistoryFit.dfy` | grouping, sorting and averaging the history; the fitted model |
| `Solver.dfy` | the dispatch, its branches, and how the answer moves with the constraints |
| `SolverWitnesses.dfy`, `ResidualWitness.dfy` | recorded histories that show where its promises end, and that the fit adds up squares |
| `HistoryWriter.dfy`, `Retention.dfy`, `ConfigHash.dfy` | which runs are recorded, how many are kept, and which jobs share them |

**The lifecycle.** A job goes through its phases by reconcile steps that write phase, operation ID,
pool size and results in separate patches. `Lifecycle.dfy` is the state machine of those steps
together with the cluster and the cloud; `Invariant.dfy` is what every step keeps; `LogFacts.dfy`
ties its counters to the events. `LifecycleSafety.dfy` holds the theorems over all runs, and
`FailureCauses.dfy` those on what a failed job leaves of its pool, by reason. `LifecycleConduct.dfy` proves what
must have been done by the time a job gets where it is; `LifecycleTransitions.dfy` what takes it from phase to
phase; `LifecycleUndisturbed.dfy` the run in which nothing goes wrong. `LifecycleProgress.dfy` and
`LifecycleCleanup.dfy` name the worlds from which a job can still succeed, or be removed with its pool;
`LifecyclePaths.dfy` and `LifecycleWitnesses.dfy` build the runs that show where the promises end; `Manifest.dfy`
covers the node counts and replica splits of a specification. `Controller.dfy` is the reconciler in the form the program
has: a class that holds one copy of the object in memory, assigns its fields and sends merge
patches. Each of its methods is proved to take the step that the lifecycle states.

## Assumptions

- Reals stand for float64; the largest finite float64 is kept as the time of a model without throughput.
- The specification is fixed after creation. The API server admits no negative `topology.nodes`;
  `masterReplicas` has no minimum.
- A reconcile reads the latest stored status, and reconciles of one job are serial.
- A patch lands as a whole or is lost. A lost write ends the reconcile where the program returns the
  error, so it also stands for a crash before the write; a crash after a write is the loss of the next one.
- The answers of the cloud and of the API server are free, except that an accepted or silently
  effective call fits the state of the pool, and a finished operation has had its effect. The count of
  ready nodes is free too.
- A reason to give up is noted when it is found, which for an error of the creation poll is before the delete call.
- Pool names are unique and not in use; nobody but the operator deletes a pool; a deletion that took
  effect stays in progress until the pool is gone. No other finalizer holds the object.
- Backends report no provisioning time of their own.
- A history that is not empty has positive node counts, and with exactly two of them a non-zero average
  throughput at the smaller one.

## Where code and documentation disagree

The model follows the code.

- `operator/README.md:71` says that a failed job's pool is deleted. A delete call is made exactly when a poll of
  the create operation returned an error, which may be an error of the polling call on a healthy creation.
  Unless a Failed write was lost, every job whose provisioning results are recorded fails with its pool up, and
  the pool stays up until the object is deleted (`FailedPool`, `FailedPoolByCause`, `FailedIsLeftAlone`;
  `LostFailedWriteLosesPool` is the other case).
- The comment at `operator/internal/controller/distributedtraining_controller.go:140-141` guarantees no orphaned
  infrastructure; a job that succeeded without any deletion of its pool taking effect leaves the pool behind, for
  good (`OrphanedIff`, `SucceededLeavesPool`, `LeakedForGood`).
- `operator/feature.md:145` derives a non-increasing T from α ≤ 1, but the two-point fit is not capped at 1; the
  exact condition on the history is `FittedTimeNonIncreasingIff`. The same line calls cost strictly increasing,
  which needs a price, and overhead on some work or a provisioning time; the condition on the history is
  `FittedCostStrictlyIncreasingIff`, and `FreeNodesCostTheSame` is an input.
- `operator/feature.md:149` and the comment at `operator/internal/controller/solver.go:221` say that in a conflict
  no node count satisfies both constraints; two nodes may (`ConflictIsRealIff`, `FittedBothSmallest`,
  `FalseConflict`).
- `operator/api/v1/distributedtraining_types.go:410` calls maxNodes a hard cap; a calibration run with a larger
  default exceeds it (`SolverRange`, `CalibrationExceedsCap`).
- `operator/feature.md:102` says the model reproduces the run time at its reference count; it does so only
  for a single node, a mean time of 0, or a history that scales linearly (`ReferenceReproducedIff`);
  `ReferenceTimeMissed` is an input.
- The comment at `operator/internal/controller/solver.go:171-174` treats a flat curve as equally cheap; the
  answer can be over budget, by less than 1% (`CostOnlyWithinOnePercent`).
- The comment at `operator/internal/controller/distributedtraining_controller.go:371-373` says history and
  provisioning agree on the machine type; the configuration hash uses the type in the specification, so
  jobs that differ only in what the defaults give them share a history (`SameConfigurationSameMachineIff`,
  `SharedHistoryAcrossMachines`).
- Results and a zeroed pool size are stored before the Succeeded phase. Losing the phase write makes the
  next reconcile collect again with no nodes on the bill and write a second record (`BilledForNoneIff`,
  `LostWriteBillsNothing`).

## Model

| member | source | states |
|---|---|---|
| `ScalingModel.ThroughputForm` | operator/internal/controller/solver.go:330-336 | predicted throughput of n nodes times 1 + α(n − 1) is n baselines, and its sign is that of the baseline |
| `ScalingModel.LargestFloat` | operator/internal/controller/solver.go:338-344 | the time of a model without throughput is the largest finite float64, 2^971 below 2^1024 |
| `ScalingModel.NodeSecondsForm` | operator/internal/controller/solver.go:330-344 | T(n) is a fixed floor plus a share divided by n, for every α ≥ 0 |
| `ScalingModel.TimeOrder` | operator/internal/controller/solver.go:330-344 | the direction of T between any two node counts is decided by the sign of w(1 − α) alone |
| `ScalingModel.TimeNonIncreasingIff` | operator/internal/controller/solver.go:330-344 | T never rises on [2, maxNodes] if and only if α ≤ 1 |
| `ScalingModel.TimeStrictlyDecreasing` | operator/internal/controller/solver.go:330-344 | for α < 1 every extra node shortens the run |
| `ScalingModel.TimeOneDirection` | operator/internal/controller/solver.go:330-344 | whatever the parameters, T never falls over one pair of counts and rises over another |
| `ScalingModel.CostAffine` | operator/internal/controller/solver.go:346-350 | every extra node adds the same amount to the cost |
| `ScalingModel.CostForm` | operator/internal/controller/solver.go:346-350 | Cost(n) is affine in n |
| `ScalingModel.CostNonDecreasing` | operator/internal/controller/solver.go:346-350 | cost never falls as nodes are added, for every α ≥ 0 |
| `ScalingModel.CostStrictlyIncreasingIff` | operator/internal/controller/solver.go:346-350 | cost strictly increases if and only if nodes have a price and there is provisioning time, overhead on some work, or no throughput |
| `ScalingModel.FlatCostBound` | operator/internal/controller/solver.go:352-359 | under a flat curve every node count in the range costs less than 1% more than two nodes |
| `ScalingModel.FlatCostIff` | operator/internal/controller/solver.go:352-359 | a curve counts as flat if and only if two nodes cost nothing, or one percent of their cost exceeds what all further nodes add |
| `NodeSearch.BinarySearchMinN` | operator/internal/controller/solver.go:367-381 | the search returns what a linear scan guarded by the upper end returns, for every α ≥ 0; no int32 overflow up to 2^30 nodes |
| `NodeSearch.BinarySearchMaxN` | operator/internal/controller/solver.go:385-399 | the search returns what a linear scan guarded by the lower end returns; no int32 overflow below 2^30 nodes |
| `NodeSearch.SmallestMeeting` | operator/internal/controller/solver.go:365-381 | reference: the smallest n with T(n) ≤ target, the upper end when there is none |
| `NodeSearch.LargestAffordable` | operator/internal/controller/solver.go:383-399 | reference: the largest n with Cost(n) ≤ budget, the lower end when there is none |
| `NodeSearch.TimeNodes` | operator/internal/controller/solver.go:367-381 | the answer is feasible whenever maxNodes is, with no monotonicity assumed |
| `NodeSearch.BudgetNodes` | operator/internal/controller/solver.go:385-399 | the answer is affordable whenever the lower end is |
| `NodeSearch.MidpointSumsFitIff` | operator/internal/controller/solver.go:373-397 | the midpoint sums of the two searches fit an int32 exactly up to 2^30 and below 2^30 nodes |
| `NodeSearch.MinSearchCorrectIff` | operator/internal/controller/solver.go:365-381 | the documented smallest n is returned if and only if not T(lo) ≤ target < T(maxNodes) |
| `NodeSearch.MinSearchCorrect` | operator/internal/controller/solver.go:365-381 | the documented smallest n is returned for every α ≤ 1 |
| `NodeSearch.MaxSearchCorrect` | operator/internal/controller/solver.go:383-399 | the largest affordable n is returned, and exactly the counts up to it are affordable |
| `NodeSearch.TimeNodesMonotone` | operator/internal/controller/solver.go:367-381 | a looser target never needs more nodes |
| `NodeSearch.BudgetNodesMonotone` | operator/internal/controller/solver.go:385-399 | a larger budget never buys fewer nodes |
| `GoldenSection.Search` | operator/internal/controller/solver.go:556-571 | the loop returns the midpoint of the first bracket within tolerance, after the computed number of steps |
| `GoldenSection.Minimizer` | operator/internal/controller/solver.go:556-571 | the result lies in the bracket, strictly inside a proper one |
| `GoldenSection.StepsShrink` | operator/internal/controller/solver.go:557-571 | the bracket shrinks by the literal ratio, which bounds the number of steps |
| `GoldenSection.UnitIntervalSteps` | operator/internal/controller/solver.go:323-323 | on [0, 1] with tolerance 1e-6 the loop runs exactly 29 times |
| `GoldenSection.NarrowMeets` | operator/internal/controller/solver.go:561-569 | a step never drops the interval outside which the function leads back to it |
| `GoldenSection.MinimizerNear` | operator/internal/controller/solver.go:556-571 | for a function falling before l and rising after u the result is within half the tolerance of [l, u] |
| `GoldenSection.ConstantEndsHigh` | operator/internal/controller/solver.go:561-569 | a tie keeps the upper part of the bracket: for a constant function the result is within half the tolerance of the upper end |
| `AlphaFit.TwoPointAlpha` | operator/internal/controller/solver.go:299-309 | the two-point fit is never negative |
| `AlphaFit.TwoPointFit` | operator/internal/controller/solver.go:299-309 | the fit hits the larger count capped at linear scaling; it underestimates the smaller one unless n = 1 or α = 0; α ≤ 1 if and only if n2 nodes beat one node's share |
| `AlphaFit.TwoPointIdle` | operator/internal/controller/solver.go:303-306 | a larger count that achieves nothing or less is fitted without overhead |
| `AlphaFit.FittedAlpha` | operator/internal/controller/solver.go:294-324 | the fitted overhead is never negative, whichever path is taken |
| `AlphaFit.BestFit` | operator/internal/controller/solver.go:311-323 | the overhead in [0, 1] that best explains one node count |
| `AlphaFit.RawFitCompares` | operator/internal/controller/solver.go:311-323 | α is below the best fit of a count exactly when the prediction is above its measurement |
| `AlphaFit.ResidualOfOne` | operator/internal/controller/solver.go:312-318 | one node count contributes the square of prediction minus average, with the prediction given by its defining equation |
| `AlphaFit.ResidualConcat` | operator/internal/controller/solver.go:312-320 | the residual adds up over the node counts |
| `AlphaFit.ResidualOrder` | operator/internal/controller/solver.go:311-323 | the residual sum falls strictly before all best fits and rises strictly after them, for any number of counts |
| `AlphaFit.ResidualShape` | operator/internal/controller/solver.go:311-323 | on [0, 1] the residual sum leads towards the interval of the best fits |
| `AlphaFit.SearchNearBestFits` | operator/internal/controller/solver.go:311-323 | for three or more counts the searched α is within 5e-7 of the interval of the best fits |
| `AlphaFit.ExactModelRecovered` | operator/internal/controller/solver.go:311-323 | an α in [0, 1] that explains all averages is recovered to 5e-7 |
| `AlphaFit.SearchedAlphaInside` | operator/internal/controller/solver.go:311-323 | for three or more counts α is strictly between 0 and 1 |
| `AlphaFit.SearchTakesTwentyNineSteps` | operator/internal/controller/solver.go:323-323 | the search takes 29 steps, whatever was measured |
| `HistoryFit.MapValuesLoop` | operator/internal/controller/solver.go:537-543 | the loop maps every entry, in order |
| `HistoryFit.AverageLoop` | operator/internal/controller/solver.go:545-554 | the loop averages, and answers 0 for no values |
| `HistoryFit.GroupByN` | operator/internal/controller/solver.go:520-526 | grouping partitions the entries: each group holds exactly the entries of its count, in order |
| `HistoryFit.SortedKeys` | operator/internal/controller/solver.go:528-535 | the keys come out ascending, whatever order the map yields them in |
| `HistoryFit.AscendingUnique` | operator/internal/controller/solver.go:528-535 | a set has one strictly ascending listing |
| `HistoryFit.CollectPoints` | operator/internal/controller/solver.go:299-321 | one average throughput per node count, ascending |
| `HistoryFit.ResidualLoop` | operator/internal/controller/solver.go:312-321 | the loop that adds diff * diff over the node counts, averaging anew at each, computes the residual that is searched |
| `HistoryFit.EstimateAlpha` | operator/internal/controller/solver.go:294-324 | the overhead is fitted to the averages of the grouped history |
| `HistoryFit.EstimateModel` | operator/internal/controller/solver.go:253-288 | α, baseline, work and provisioning average of any usable history |
| `HistoryFit.SumPermuted` | operator/internal/controller/solver.go:545-554 | a sum over records does not depend on their order |
| `HistoryFit.AtMultiplicity` | operator/internal/controller/solver.go:520-526 | grouping loses no record and invents none |
| `HistoryFit.EstimateIgnoresOrder` | operator/internal/controller/solver.go:253-324 | histories with equal multisets of records give equal models |
| `HistoryFit.WeightedTimeWithinRuns` | operator/internal/controller/solver.go:258-272 | the throughput-weighted mean time lies between the shortest and the longest run |
| `HistoryFit.ReferenceTime` | operator/internal/controller/solver.go:258-272 | T(n_min) is that mean times 1 + α(n_min − 1), hence exact if and only if n_min = 1, α = 0 or the mean is 0 |
| `Solver.SolveTimeOnly` | operator/internal/controller/solver.go:120-156 | the time-only branches, with and without a known price |
| `Solver.SolveCostOnly` | operator/internal/controller/solver.go:158-189 | the cost-only branch, flat or not |
| `Solver.SolveBoth` | operator/internal/controller/solver.go:191-239 | the combined branch with its conflict cases |
| `Solver.RunSolver` | operator/internal/controller/solver.go:28-114 | the dispatch answers what the linear-scan reference answers, errors and calibration runs included |
| `Solver.BothIsMin` | operator/internal/controller/solver.go:191-239 | flat or not, the combined choice is the smaller of the two single-constraint choices |
| `Solver.BothSmallestIff` | operator/internal/controller/solver.go:191-239 | the smallest n meeting both constraints is chosen whenever one exists, if and only if not T(2) ≤ target < T(maxNodes) with three nodes affordable |
| `Solver.ConflictIsRealIff` | operator/internal/controller/solver.go:213-239 | a reported conflict means that no n meets both constraints, except if and only if two nodes meet both and maxNodes neither |
| `Solver.BothOptimal` | operator/internal/controller/solver.go:213-239 | for α ≤ 1 the choice is the smallest and cheapest of all that meet both constraints |
| `Solver.BothWithinBudget` | operator/internal/controller/solver.go:221-239 | the budget is respected whenever two nodes fit it |
| `Solver.TimeOnlyAnswer` | operator/internal/controller/solver.go:74-108 | with a target and no usable budget the solver answers the smallest n with T(n) ≤ target if maxNodes meets it, else maxNodes |
| `Solver.CostOnlyAnswer` | operator/internal/controller/solver.go:109-110 | with a budget alone it answers the largest affordable n, 2 when none is, and maxNodes on a flat curve |
| `Solver.BothAnswer` | operator/internal/controller/solver.go:111-113 | with both it answers the count for the target if the budget allows it, else the count for the budget |
| `Solver.AnswerEstimates` | operator/internal/controller/solver.go:406-440 | the estimates are the predicted time and cost of the chosen count, a time of half the largest float64 or more and a price of zero or less unreported |
| `Solver.CostOnlyWithinOnePercent` | operator/internal/controller/solver.go:158-189 | the choice exceeds the budget exactly when the curve is flat and its far end is out of budget, and then by less than 1% |
| `Solver.LooserTargetNeverMoreNodes` | operator/internal/controller/solver.go:120-239 | loosening the target never raises the node count, in any branch |
| `Solver.LargerBudgetNeverFewerNodes` | operator/internal/controller/solver.go:120-239 | raising the budget never lowers the node count, in any branch |
| `Solver.ExtraConstraintNeverMoreNodes` | operator/internal/controller/solver.go:101-113 | adding a constraint never adds nodes once the price is known |
| `Solver.SolverFailsIff` | operator/internal/controller/solver.go:28-114 | the solver fails exactly when the history cannot be loaded or a constraint it consults cannot be parsed |
| `Solver.ChoiceRange` | operator/internal/controller/solver.go:406-440 | every answer of a model branch lies in [2, maxNodes], split into one master and the rest for pytorch |
| `Solver.SolverRange` | operator/internal/controller/solver.go:28-114 | a calibration run has the default node count, and the cap is exceeded if and only if a calibration run has a larger default |
| `Solver.CalibrationExceedsCap` | operator/internal/controller/solver.go:43-54 | four nodes scheduled for an objective capped at two |
| `Solver.SolverIgnoresOrder` | operator/internal/controller/solver.go:28-114 | the order in which history is listed never changes the answer |
| `SolverWitnesses.MinSearchMissesSmallest` | operator/internal/controller/solver.go:365-381 | a recorded history for which two nodes meet the target and eight are scheduled |
| `SolverWitnesses.FlatCostOvershoots` | operator/internal/controller/solver.go:171-174 | a recorded history for which two nodes fit the budget and the answer exceeds it |
| `SolverWitnesses.FalseConflict` | operator/internal/controller/solver.go:213-239 | a recorded history for which two nodes meet both constraints and four are scheduled, missing the target |
| `SolverWitnesses.ReferenceTimeMissed` | operator/internal/controller/solver.go:258-272 | a recorded history whose only run at n_min took 60 s and for which more than 66 s are predicted |
| `SolverWitnesses.FreeNodesCostTheSame` | operator/internal/controller/solver.go:346-350 | at a price of zero the cost is constant |
| `ResidualWitness.SquaresOutweigh` | operator/internal/controller/solver.go:311-323 | a recorded history for which the sum of squares makes the solver answer five nodes or more although four did the work in time |
| `Retention.InsertByAge` | operator/internal/controller/history.go:153-156 | inserting keeps a listing ascending by age and is a permutation |
| `Retention.SortByAge` | operator/internal/controller/history.go:153-156 | the sorted listing is ascending by age and a permutation of the listing |
| `Retention.HistoryStore.List` | operator/internal/controller/history.go:140-147 | a listing holds exactly the records of one configuration, each once |
| `Retention.HistoryStore.PruneHistory` | operator/internal/controller/history.go:140-166 | a prune deletes only the oldest records of one configuration, exactly the excess unless listing or a deletion fails |
| `Retention.HistoryStore.WriteHistoryEntry` | operator/internal/controller/history.go:92-132 | a failed prune does not stop the write; a refused create leaves the pruned store |
| `Retention.WriteCounts` | operator/internal/controller/history.go:92-166 | any write leaves other configurations untouched and adds at most one; a clean one leaves min(count + 1, 10) |
| `Retention.RetentionStep` | operator/internal/controller/history.go:92-166 | one clean write keeps the newest records |
| `Retention.AnyRunKeepsNewest` | operator/internal/controller/history.go:92-166 | whatever listing, deletions or creations fail in a run of serial writes, nothing dropped is more recent than anything kept |
| `Retention.RetentionKeepsNewest` | operator/internal/controller/history.go:92-166 | after any run of clean serial writes each configuration holds the newest min(count, 10) of all its records |
| `ConfigHash.SplitJoin` | operator/internal/controller/history.go:254-294 | splitting the joined string gives back separator-free parts |
| `ConfigHash.JoinInjective` | operator/internal/controller/history.go:254-294 | joining separator-free parts is injective |
| `ConfigHash.AtoiOfItoa` | operator/internal/controller/history.go:275-277 | a printed integer reads back as itself |
| `ConfigHash.JoinSplit` | operator/internal/controller/history.go:294-294 | joining undoes splitting on every string |
| `ConfigHash.JoinIff` | operator/internal/controller/history.go:285-294 | any two lists of strings join to one string if and only if they fall into the same pieces |
| `ConfigHash.AlignedJoinIff` | operator/internal/controller/history.go:285-294 | two lists are equal if and only if they join to one string and hold equally many separators one by one |
| `ConfigHash.PreHashIff` | operator/internal/controller/history.go:247-294 | two jobs share a configuration if and only if their parts fall into the same pieces, whatever the fields hold |
| `ConfigHash.BackendsKeptApart` | operator/internal/controller/history.go:247-294 | jobs of different backends never share a configuration, whatever the fields hold |
| `ConfigHash.PytorchPreHashIff` | operator/internal/controller/history.go:256-279 | all listed fields agree if and only if the configuration is shared and the separators are aligned, as they are when there are none |
| `ConfigHash.SparkPreHashIff` | operator/internal/controller/history.go:280-289 | a configuration is shared if and only if leading fields and argument lists fall into the same pieces; it means equal fields if and only if the separators are aligned too |
| `ConfigHash.Collisions` | operator/internal/controller/history.go:285-294 | lists that collide, and lists with separators that do not |
| `ConfigHash.SameConfigurationSameMachineIff` | operator/internal/controller/distributedtraining_controller.go:374-388 | equal configurations run on equal machine types except when defaults decide and only one job asks for a GPU; misaligned separators included |
| `ConfigHash.SharedHistoryAcrossMachines` | operator/internal/controller/distributedtraining_controller.go:374-388 | two jobs of one configuration that the defaults put on different machines |
| `ConfigHash.BarePreHash` | operator/internal/controller/history.go:280-294 | Spark jobs without a section and plain jobs are told apart by their machine type alone |
| `ConfigHash.MachineDecidedBy` | operator/internal/controller/distributedtraining_controller.go:350-388 | a given machine type decides, then a given hardware type, then the GPU limit of a pytorch job |
| `HistoryWriter.EntryFacts` | operator/internal/controller/history.go:50-117 | a record carries node count and times as measured; its work is time times throughput, which is the reported total when there is one and else comes from the reported rate |
| `HistoryWriter.RecordedIff` | operator/internal/controller/history.go:34-88 | a run is recorded if and only if its backend reports work or a non-zero rate, its training time is known and it ran on some nodes |
| `HistoryWriter.PlausibleHistoryFits` | operator/internal/controller/solver.go:253-288 | a history of positive records satisfies the sign conditions the cost results need |
| `HistoryWriter.ReferenceWithinRuns` | operator/internal/controller/solver.go:258-288 | for a history of positive records T(n_min) lies between the shortest and the longest run at n_min, both stretched by 1 + α(n_min − 1) |
| `HistoryWriter.OverheadAboveOneIff` | operator/internal/controller/solver.go:294-324 | for a history of positive records α > 1 if and only if there are two node counts and the larger achieves less than one node's share |
| `HistoryWriter.FittedTimeNonIncreasingIff` | operator/internal/controller/solver.go:294-344 | for such a history T never rises if and only if that is not the case or there is no work |
| `HistoryWriter.FittedSearchCorrectIff` | operator/internal/controller/solver.go:365-381 | and the time search misses the documented n exactly for targets between T(2) and T(maxNodes), which needs that case |
| `HistoryWriter.FittedBothSmallest` | operator/internal/controller/solver.go:191-239 | for such a history the combined search is misled, and a conflict misreported, under exact conditions that need that case |
| `HistoryWriter.NoOverheadIff` | operator/internal/controller/solver.go:294-324 | α = 0 if and only if there is one node count, or two of which the larger achieves at least its linear share |
| `HistoryWriter.ReferenceReproducedIff` | operator/internal/controller/solver.go:258-272 | the documented reproduction of the mean time at n_min holds if and only if n_min = 1, the mean is 0 or the history scales linearly |
| `HistoryWriter.FittedCostStrictlyIncreasingIff` | operator/internal/controller/solver.go:253-350 | the documented strict increase of cost holds if and only if nodes have a price and there is work that does not scale linearly or a recorded provisioning time |
| `HistoryWriter.FittedNearBestFits` | operator/internal/controller/solver.go:311-323 | for three or more recorded counts α is within 5e-7 of any interval that encloses the best fits of the recorded averages |
| `HistoryWriter.ThreeCountsSearchExact` | operator/internal/controller/solver.go:311-381 | with three or more counts T is strictly decreasing and the search returns the smallest feasible n |
| `Manifest.SplitReplicas` | operator/internal/backend/pytorch/pytorch.go:53-64 | master and worker counts, from the solver in objective mode and from the spec otherwise |
| `Manifest.ExplicitReplicasFillPoolIff` | operator/internal/backend/pytorch/pytorch.go:53-64 | with an explicit topology replicas equal nodes if and only if masters do not outnumber several nodes, or a single node has exactly one master |
| `Manifest.ExplicitReplicasMissPool` | operator/internal/backend/pytorch/pytorch.go:53-64 | admitted specifications on either side of that exception |
| `Manifest.ExplicitReplicas` | operator/internal/backend/pytorch/pytorch.go:53-64 | masters as specified, one for zero; workers for the nodes left over, none when the pool is not filled |
| `Manifest.ObjectiveReplicasFillPool` | operator/internal/backend/pytorch/pytorch.go:59-62 | in objective mode masters plus workers equal the solved nodes equal the requested pool |
| `Manifest.ObjectiveReplicas` | operator/internal/backend/pytorch/pytorch.go:59-62 | every answer of the solver is split into one master and a worker for each other node |
| `Manifest.PoolNamesCollideIff` | operator/internal/controller/distributedtraining_controller.go:290-301 | two jobs get one pool name if and only if, without names of their own, they agree on 37 characters, with them, these are equal, or one is given the name derived for the other |
| `Invariant.ReconcileKeeps` | operator/internal/controller/distributedtraining_controller.go:129-193 | every reconcile keeps the invariant that ties phase, operation, pool size, results, pool and log together |
| `Invariant.StepKeeps` | operator/internal/controller/distributedtraining_controller.go:129-236 | so does every step of the cloud and of the user |
| `Invariant.ResolveKeeps` | operator/internal/controller/phases.go:56-70 | a topology is resolved once, by an answer of the solver |
| `Invariant.ProvisioningKeeps` | operator/internal/controller/phases.go:126-225 | a provisioning step with any lost write keeps it |
| `Invariant.CreateKeeps` | operator/internal/controller/phases.go:165-177 | a create call, accepted or refused, stored or lost, keeps it |
| `Invariant.PollKeeps` | operator/internal/controller/phases.go:179-225 | polling, its errors and the two-write hand-over to Ready keep it |
| `Invariant.ReadyKeeps` | operator/internal/controller/phases.go:265-308 | launching keeps it |
| `Invariant.RunningKeeps` | operator/internal/controller/phases.go:341-403 | following or restarting the job keeps it |
| `Invariant.CollectingKeeps` | operator/internal/controller/phases.go:411-543 | collecting, again after any lost write, keeps it |
| `Invariant.DeleteKeeps` | operator/internal/controller/distributedtraining_controller.go:198-236 | deleting the object in any phase keeps it |
| `Invariant.RunKeeps` | operator/internal/controller/distributedtraining_controller.go:129-236 | it holds in every world of every run |
| `Invariant.ReachableInv` | operator/internal/controller/distributedtraining_controller.go:129-236 | it holds in every reachable world |
| `LogFacts.TallyMeans` | operator/internal/controller/phases.go:165-225 | the counters the invariant uses mean what the events of the log say, in both directions |
| `LifecycleSafety.OrphanedIff` | operator/internal/controller/distributedtraining_controller.go:196-236 | once the object is gone the pool is left behind if and only if the job succeeded and no deletion of the pool ever took effect |
| `LifecycleSafety.NoPoolWithoutFinalizer` | operator/internal/controller/distributedtraining_controller.go:146-154 | no pool is requested before the finalizer is present |
| `LifecycleSafety.SecondCreateNeedsLoss` | operator/internal/controller/phases.go:165-177 | a create call after an answered one needs a lost operation-ID write or a lost Ready write between the two |
| `LifecycleSafety.ReadyHasItsNodes` | operator/internal/controller/phases.go:192-225 | a ready or running job has no operation stored and at least the nodes it asked for |
| `LifecycleSafety.OneNodeCount` | operator/internal/controller/phases.go:132-141 | all pool requests, replica counts and history records of a job carry one node count; replicas differ from it exactly for the explicit topologies that do not fill their pool |
| `LifecycleSafety.RecordedNodesIff` | operator/internal/controller/history.go:168-191 | for any specification the count that would be recorded is the one requested, except for a default count, a pytorch job without its section, or a backend that is not recorded |
| `LifecycleSafety.ReplicasApplied` | operator/internal/backend/pytorch/pytorch.go:53-64 | every manifest of a run has one master and desired − 1 workers in objective mode, else the masters specified and a worker for each node left over |
| `LifecycleSafety.HistoryRecordsBounded` | operator/internal/controller/phases.go:528-543 | a job is recorded at most once more than final writes were lost, and a failed job never |
| `LifecycleSafety.BilledForNoneIff` | operator/internal/controller/phases.go:480-543 | a succeeded job is billed for no nodes if and only if a Succeeded write was lost; otherwise for at least the requested nodes |
| `LifecycleSafety.ReconcileMoves` | operator/internal/controller/distributedtraining_controller.go:174-193 | one reconcile moves at most one edge of the phase diagram |
| `LifecycleSafety.RunsMoveForward` | operator/internal/controller/distributedtraining_controller.go:174-193 | over any run phases only move forward, final phases and resolved topologies are kept, deleted objects stay gone |
| `LifecycleConduct.ReachableConducted` | operator/internal/controller/distributedtraining_controller.go:129-236 | in every reachable world phase, reasons, launches, delete calls and records fit together, without any assumption on the deployment |
| `LifecycleConduct.SucceededAskedForDeletion` | operator/internal/controller/phases.go:446-458 | every succeeded job had its pool asked to be deleted while it was collected |
| `LifecycleConduct.OrphanWasRefused` | operator/internal/controller/phases.go:446-458 | a pool left behind saw such calls, and none of them took effect |
| `LifecycleConduct.ReasonsJustified` | operator/internal/controller/phases.go:28-377 | no job is given up as invalid, unknown or vanished, or launched, unless its specification and the deployment say so; a restartable job never for having vanished |
| `LifecycleConduct.NothingForDefective` | operator/internal/controller/phases.go:74-120 | no pool is requested, and nothing launched or recorded, for a job with any of the listed defects |
| `LifecycleConduct.TopologyNeverMissing` | operator/internal/controller/phases.go:134-141 | unless the calibration default is zero the missing-topology failure is unreachable |
| `LifecycleConduct.ManifestsApplied` | operator/internal/controller/phases.go:289-373 | until a job runs its manifest was applied once per lost launch write, afterwards more often, and exactly once more without restarts |
| `LifecycleConduct.RecordsCarryProvisioning` | operator/internal/controller/phases.go:211-219 | every record carries the provisioning time of the results |
| `LifecycleTransitions.LeavesPendingIff` | operator/internal/controller/phases.go:28-72 | when a new job moves on, with which topology, and when it fails |
| `LifecycleTransitions.LeavesProvisioningIff` | operator/internal/controller/phases.go:126-225 | a job becomes ready if and only if its pool is counted in full and both writes land, with the count and the time stored; it fails if and only if the call or the poll does |
| `LifecycleTransitions.WaitsForNodes` | operator/internal/controller/phases.go:199-209 | while nodes are missing only the count changes, and the operation is kept |
| `LifecycleTransitions.LeavesReadyIff` | operator/internal/controller/phases.go:265-308 | a ready job runs if and only if its manifest is applied and both writes land, and fails only for a manifest that cannot be |
| `LifecycleTransitions.LeavesRunningIff` | operator/internal/controller/phases.go:341-403 | a running job is collected or fails exactly in the listed cases of backend, report and restart policy |
| `LifecycleTransitions.StartIsNoted` | operator/internal/controller/phases.go:376-392 | the start is noted once the backend knows it and kept while the job is followed |
| `LifecycleTransitions.VanishedIsRelaunched` | operator/internal/controller/phases.go:359-373 | under OnFailure a vanished job is running again after the same reconcile, with one more manifest and its start forgotten |
| `LifecycleTransitions.VanishedIsFailed` | operator/internal/controller/phases.go:374-376 | without it the job fails for having vanished, its pool untouched |
| `LifecycleTransitions.LeavesCollectingIff` | operator/internal/controller/phases.go:411-543 | collecting ends if and only if the two final writes land, whatever became of deletion and record |
| `LifecycleTransitions.RunIsRecordedIff` | operator/internal/controller/history.go:34-88 | a collecting step adds one record if and only if the job is of a recorded kind, its start was noted, and its registered backend reports work or a rate |
| `LifecycleTransitions.UnknownPhaseStartsOver` | operator/internal/controller/distributedtraining_controller.go:190-193 | an unknown phase is set back to Pending, and nothing else changes |
| `LifecycleTransitions.RemovedIff` | operator/internal/controller/distributedtraining_controller.go:198-236 | the object goes if and only if its finalizer write lands and its pool was found gone, accepted for deletion, or not asked about |
| `LifecycleTransitions.GuardedFirst` | operator/internal/controller/distributedtraining_controller.go:146-154 | nothing but the finalizer is written before it is present |
| `LifecycleUndisturbed.UndisturbedRun` | operator/internal/controller/phases.go:28-579 | every startable job has the run in which nothing goes wrong, with exactly one pool request, manifest, deletion and, for recordable jobs, record, the bill for the nodes that turned up, and the pool gone at its end |
| `FailureCauses.ReachableTells` | operator/internal/controller/phases.go:126-403 | in every reachable world the noted reason, the delete calls, the recorded results and the pool fit together |
| `FailureCauses.TrailSays` | operator/internal/controller/distributedtraining_controller.go:268-288 | the counters that invariant uses mean what the events of the log say |
| `FailureCauses.FailedPool` | operator/internal/controller/phases.go:179-190 | a failed job nobody asked to delete saw delete calls in Provisioning only, and one if and only if a poll of the create operation returned an error |
| `FailureCauses.FailedPoolByCause` | operator/internal/controller/distributedtraining_controller.go:268-288 | with no Failed write lost the single reason separates kept from deleted pools, and the pool is up for every job with recorded provisioning results |
| `FailureCauses.FailedIsLeftAlone` | operator/internal/controller/distributedtraining_controller.go:187-189 | over any stretch of a run without a deletion request a failed job stays as it is and a pool that is up stays up |
| `LifecycleProgress.SuccessPossibleIff` | operator/internal/controller/distributedtraining_controller.go:129-193 | some continuation succeeds if and only if the job has succeeded, or is still there, undeleted, unfailed and, in Provisioning, with its pool within reach |
| `LifecycleProgress.StrandedForGood` | operator/internal/controller/phases.go:165-177 | a job that cannot succeed any more never gets to a world in which it could |
| `LifecycleProgress.LostReadyWriteStrands` | operator/internal/controller/phases.go:211-225 | clearing the operation and then losing the Ready write strands the job |
| `LifecycleCleanup.LeakedForGood` | operator/internal/controller/distributedtraining_controller.go:204-225 | once a job has succeeded with its pool up, nothing that can still happen deletes the pool |
| `LifecycleCleanup.DeletionStarts` | operator/internal/controller/phases.go:446-458 | an accepted delete call takes the pool down and leaves its operation stored if that write lands |
| `LifecycleCleanup.DeletionClearedIff` | operator/internal/controller/phases.go:548-579 | a stored deletion is cleared if and only if a poll finds it done and the write lands |
| `LifecycleCleanup.DeletionIsFollowed` | operator/internal/controller/phases.go:548-579 | over any stretch of a run a stored deletion is kept until a poll finds it done, at which point the pool is gone |
| `LifecycleCleanup.CleanupPossibleIff` | operator/internal/controller/distributedtraining_controller.go:196-236 | from any reachable world some continuation removes the object and its pool if and only if the job has not succeeded with its pool up |
| `LifecycleWitnesses.FailedKeepsPool` | operator/internal/controller/phases.go:398-399 | every startable job can fail with its pool still up |
| `LifecycleWitnesses.LostFailedWriteLosesPool` | operator/internal/controller/phases.go:179-190 | every startable job can fail for another reason on a pool deleted earlier, after a lost Failed write |
| `LifecycleWitnesses.SucceededLeavesPool` | operator/internal/controller/phases.go:450-458 | every startable job can succeed, be deleted and leave its pool behind |
| `LifecycleWitnesses.LostWriteBillsNothing` | operator/internal/controller/phases.go:530-543 | every startable job can succeed with a bill for no nodes and two history records |
| `LifecycleWitnesses.MissingTopologyIff` | operator/internal/controller/phases.go:134-141 | in objective mode the missing-topology failure can happen if and only if the calibration default is zero |
| `LifecycleWitnesses.RejectedIff` | operator/internal/controller/phases.go:74-120 | a job is given up as invalid in some run if and only if its specification has one of the listed defects |
| `Controller.MergeInStep` | operator/internal/controller/distributedtraining_controller.go:257-261 | a merge patch of a copy in step with the store stores that copy |
| `Controller.MergeBesideOp` | operator/internal/controller/phases.go:454-457 | a patch does not send an operation ID that drifted in memory |
| `Controller.Reconciler.StatusPatch` | operator/internal/controller/distributedtraining_controller.go:257-261 | a status patch lands as a merge, or is lost and leaves the copy in memory changed |
| `Controller.Reconciler.SetPhase` | operator/internal/controller/distributedtraining_controller.go:250-266 | only the phase is sent, whatever else drifted in memory |
| `Controller.Reconciler.GiveUp` | operator/internal/controller/distributedtraining_controller.go:268-288 | the reason is noted and only the phase is sent |
| `Controller.Reconciler.CreateNodePool` | operator/internal/cloud/provider.go:43-45 | the effect of a create call on the pool |
| `Controller.Reconciler.DeleteNodePool` | operator/internal/cloud/provider.go:47-49 | the effect of a delete call on the pool |
| `Controller.Reconciler.ReconcilePending` | operator/internal/controller/phases.go:28-72 | the handler, field by field and patch by patch, takes the pending step |
| `Controller.Reconciler.Resolve` | operator/internal/controller/phases.go:56-71 | the solver is asked only while no topology is resolved, and its answer is stored before the phase |
| `Controller.Reconciler.ReconcileProvisioning` | operator/internal/controller/phases.go:126-225 | likewise for provisioning |
| `Controller.Reconciler.RequestPool` | operator/internal/controller/phases.go:166-176 | the call and the storing of its operation ID are two steps |
| `Controller.Reconciler.PollPool` | operator/internal/controller/phases.go:178-209 | an error of the poll deletes the pool and fails the job; a finished creation waits for the nodes |
| `Controller.Reconciler.PoolReady` | operator/internal/controller/phases.go:211-225 | operation, size and provisioning time in one patch, the phase in the next |
| `Controller.Reconciler.ReconcileReady` | operator/internal/controller/phases.go:265-308 | likewise for ready |
| `Controller.Reconciler.Launch` | operator/internal/controller/phases.go:289-307 | the applied manifest, the stored job name, then the phase |
| `Controller.Reconciler.ReconcileRunning` | operator/internal/controller/phases.go:341-403 | likewise for running, restarts included |
| `Controller.Reconciler.NoteStart` | operator/internal/controller/phases.go:376-392 | a lost start time stays in memory only and does not stop the reconcile |
| `Controller.Reconciler.ReconcileCollecting` | operator/internal/controller/phases.go:411-543 | likewise for collecting |
| `Controller.Reconciler.TearDown` | operator/internal/controller/phases.go:446-458 | a lost operation ID of the deletion stays in memory only |
| `Controller.Reconciler.Finish` | operator/internal/controller/phases.go:530-543 | results and zeroed pool size in one patch, the phase in the next, without the drifted operation ID |
| `Controller.Reconciler.ReconcileSucceeded` | operator/internal/controller/phases.go:548-579 | likewise for succeeded |
| `Controller.Reconciler.ReconcileDelete` | operator/internal/controller/distributedtraining_controller.go:198-236 | likewise for deletion |
| `Controller.Reconciler.Reconcile` | operator/internal/controller/distributedtraining_controller.go:129-193 | one reconcile takes the step of the lifecycle and keeps its invariant |

## Left out

- NodeSearch.BinarySearchMinN: caps above 2^30, for which a midpoint sum can leave the int32 range and wrap; the model would then need float64 predictions at negative node counts (`MidpointSumsFitIff` gives the bound).
- NodeSearch.BinarySearchMaxN: caps of 2^30 and more, likewise.
- Solver.RunSolver: caps of 2^30 and more, likewise.
- Solver.SolveTimeOnly: caps of 2^30 and more, likewise.
- Solver.SolveCostOnly: caps of 2^30 and more, likewise.
- Solver.SolveBoth: caps of 2^30 and more, likewise.
- Controller.Reconciler.ReconcilePending: objectives with caps of 2^30 and more, likewise.
- Controller.Reconciler.Resolve: objectives with caps of 2^30 and more, likewise.
- Controller.Reconciler.Reconcile: objectives with caps of 2^30 and more, likewise; the lifecycle itself has no such bound.
- HistoryFit.EstimateAlpha: the search evaluates a recursive function over the averages; that the closure's own loop computes the same is `ResidualLoop`.
- AlphaFit.SearchNearBestFits: rounding of float64, NaN and infinities.
- Invariant.ReachableInv: a calibration default below one, which the command line does not reject, is outside the deployment assumption of the lifecycle results; `MissingTopologyIff` covers every default.
- LifecycleSafety.OrphanedIff: a pool that another job of the same pool name shares; `PoolNamesCollideIff` says when that happens.
- ConfigHash.SparkPreHashIff: SHA-256 is an injective digest without separators in its output.
- The price, durations and quantities are read as values; parsing is only modelled as succeeding or failing.
- The cost estimate as a formatted string, the recorded actual cost, metrics, events and log messages.
- Informer caches, optimistic locking and watch events.
- The manifests beyond replica counts: arguments, volumes, environment, node selectors, the Spark and plain-job backends.
- Reading results from volumes, log streaming, the GKE client, dashboards and deployment files.

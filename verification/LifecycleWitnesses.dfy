/** Runs that show what the lifecycle does not promise: each exists for every valid job whose backend is registered. */
module LifecycleWitnesses {
  import opened Common
  import opened Solver
  import opened Manifest
  import opened Lifecycle
  import opened Invariant
  import opened LogFacts
  import opened LifecycleSafety
  import LifecycleConduct
  import opened LifecyclePaths
  import opened FailureCauses
  import HistoryWriter

  /** The job is running; its pool is up. */
  lemma ReachRunning(cfg: Config, spec: JobSpec) returns (w: World)
    requires Startable(cfg, spec)
    ensures On(cfg, spec, INITIAL, w) && Tended(w) && w.pool.Up? && w.status.phase.Running?
    ensures |w.log| == 2 && w.log[0].CreateCalled? && w.log[1].ManifestApplied?
  {
    OnStart(cfg, spec);
    w := GoGuarded(cfg, spec, INITIAL, INITIAL);
    w := GoWaiting(cfg, spec, INITIAL, w);
    w := GoCreated(cfg, spec, INITIAL, w);
    w := GoReady(cfg, spec, INITIAL, w);
    w := GoRunning(cfg, spec, INITIAL, w);
    assert w.log[0] == w.log[..1][0];
  }

  /** A job that failed while running keeps its pool. */
  lemma FailedKeepsPool(cfg: Config, spec: JobSpec) returns (w: World)
    requires Startable(cfg, spec)
    ensures Reachable(cfg, spec, w) && w.status.phase.Failed? && w.pool.Up? && !w.deleting
    ensures forall e | e in w.log :: !e.DeleteCalled?
  {
    var w0 := ReachRunning(cfg, spec);
    w := FailRunning(cfg, spec, w0);
  }

  lemma LastCauseOf(log: seq<Event>, c: Cause)
    ensures LastCause(log + [GaveUp(c)]) == Some(c)
  {
  }

  /**
   A pool whose creation could not be polled is deleted, but the Failed write is lost; the operation turns
   out done, and the job runs and fails on a pool that is going away.
   */
  lemma LostFailedWriteLosesPool(cfg: Config, spec: JobSpec) returns (w: World)
    requires Startable(cfg, spec)
    ensures Reachable(cfg, spec, w) && w.status.phase.Failed? && !w.deleting && w.status.results.Some?
    ensures LastCause(w.log) == Some(JobError) && DeleteWasCalled(w.log) && w.pool.Deleting?
  {
    OnStart(cfg, spec);
    w := GoGuarded(cfg, spec, INITIAL, INITIAL);
    w := GoWaiting(cfg, spec, INITIAL, w);
    w := GoCreated(cfg, spec, INITIAL, w);
    w := LoseFailedWrite(cfg, spec, w);
    w := GoReady(cfg, spec, INITIAL, w);
    w := GoRunning(cfg, spec, INITIAL, w);
    w := FailRunning(cfg, spec, w);
    FailedPool(cfg, spec, w);
  }

  lemma LoseFailedWrite(cfg: Config, spec: JobSpec, w: World) returns (w': World)
    requires Startable(cfg, spec) && On(cfg, spec, INITIAL, w) && Tended(w) && w.pool.Up?
    requires w.status.phase.Provisioning? && w.status.op == Some(CreateOp)
    ensures On(cfg, spec, INITIAL, w') && Tended(w') && w'.pool.Deleting? && w'.created == w.created
    ensures w'.status.phase.Provisioning? && w'.status.op == Some(CreateOp) && GaveUp(PollFailure) in w'.log
  {
    var a := CALM.(poll := PollError, delete := DeleteAccepted, phaseWrite := false);
    OnStep(cfg, spec, INITIAL, w, Reconciled(a));
    w' := Reconcile(cfg, spec, w, a);
    assert w'.log == w.log + [GaveUp(PollFailure)] + [DeleteCalled(Provisioning, true)] + [Lost(FailedWrite)];
  }

  lemma FailRunning(cfg: Config, spec: JobSpec, w: World) returns (w': World)
    requires Startable(cfg, spec) && On(cfg, spec, INITIAL, w) && Tended(w) && w.status.phase.Running?
    ensures On(cfg, spec, INITIAL, w') && Tended(w') && w'.status.phase.Failed? && w'.pool == w.pool
    ensures w'.log == w.log + [GaveUp(JobError)] && LastCause(w'.log) == Some(JobError) && w'.status.results.Some?
  {
    var a := CALM.(job := JobFailed);
    OnStep(cfg, spec, INITIAL, w, Reconciled(a));
    w' := Reconcile(cfg, spec, w, a);
    assert NoteStart(w, a).log == w.log;
    LastCauseOf(w.log, JobError);
  }

  lemma ReachCollecting(cfg: Config, spec: JobSpec) returns (w: World)
    requires Startable(cfg, spec)
    ensures On(cfg, spec, INITIAL, w) && Tended(w) && w.pool.Up? && w.status.phase.Collecting? && w.status.trainStartSet
    ensures |w.log| == 2 && w.log[0].CreateCalled? && w.log[1].ManifestApplied?
  {
    w := ReachRunning(cfg, spec);
    w := GoCollecting(cfg, spec, INITIAL, w);
  }

  /** A job whose deletion calls in Collecting were refused leaves its pool behind when its object goes. */
  lemma SucceededLeavesPool(cfg: Config, spec: JobSpec) returns (w: World)
    requires Startable(cfg, spec)
    ensures Reachable(cfg, spec, w) && Orphaned(w)
  {
    var w0 := ReachCollecting(cfg, spec);
    var w1 := GoSucceeded(cfg, spec, INITIAL, w0);
    OnStep(cfg, spec, INITIAL, w1, UserDeletes);
    var w2 := Step(cfg, spec, w1, UserDeletes);
    OnStep(cfg, spec, INITIAL, w2, Reconciled(CALM));
    w := Step(cfg, spec, w2, Reconciled(CALM));
  }

  lemma RecordsGrow(log: seq<Event>, e: Event)
    ensures Records(log + [e]) == Records(log) + if e.HistoryWritten? then 1 else 0
  {
    assert (log + [e])[..|log|] == log;
  }

  lemma CalmRecord(cfg: Config, spec: JobSpec, s: Status, a: Answers)
    requires Startable(cfg, spec) && s.trainStartSet && Desired(spec, s.resolved) >= 1
    requires a.trainSeconds == 60.0 && a.metrics == CALM.metrics
    ensures RecordOf(cfg, spec, s, a).Some? <==> Recordable(spec)
  {
    assert !spec.backend.PlainJob? ==> (HistoryNodes(spec, s.resolved) != 0 <==> Recordable(spec));
    assert HistoryWriter.ExtractThroughput(spec.backend, a.metrics, 60.0) ==
           if spec.backend.PlainJob? then None else Some(600.0 / 60.0);
  }

  /** The last two writes, the second one landing or not. */
  lemma FinishOnce(w: World, a: Answers)
    requires w.status.results.Some? && a.resultsWrite && w.status.phase.Collecting?
    ensures var w' := Finish(w, a);
            && w' == w.(status := w'.status, log := w'.log) && Records(w'.log) == Records(w.log)
            && w'.status == w.status.(phase := w'.status.phase, results := w'.status.results, poolSize := 0)
            && w'.status.phase == (if a.phaseWrite then Succeeded else Collecting)
            && w'.status.results.Some? && w'.status.results.value.billedNodes == w.status.poolSize
  {
    RecordsGrow(w.log, Lost(SucceededWrite));
  }

  /** One collecting step with the delete call refused: a record, the bill, and the pool size set to zero. */
  lemma CollectOnce(cfg: Config, spec: JobSpec, w: World, landed: bool)
    requires Startable(cfg, spec) && Inv(spec, w) && w.status.phase.Collecting? && w.status.trainStartSet
    ensures var w' := ReconcileCollecting(cfg, spec, w, CALM.(phaseWrite := landed));
            && w' == w.(status := w'.status, log := w'.log)
            && w'.status == w.status.(phase := w'.status.phase, results := w'.status.results, poolSize := 0)
            && w'.status.phase == (if landed then Succeeded else Collecting)
            && w'.status.results.Some? && w'.status.results.value.billedNodes == w.status.poolSize
            && Records(w'.log) == Records(w.log) + if Recordable(spec) then 1 else 0
  {
    var a := CALM.(phaseWrite := landed);
    var w1 := TearDown(w, a);
    assert w1 == Note(w, DeleteCalled(Collecting, false));
    RecordsGrow(w.log, DeleteCalled(Collecting, false));
    CalmRecord(cfg, spec, w1.status, a);
    var record := RecordOf(cfg, spec, w1.status, a);
    if record.Some? {
      RecordsGrow(w1.log, HistoryWritten(record.value));
      FinishOnce(Note(w1, HistoryWritten(record.value)), a);
    } else {
      FinishOnce(w1, a);
    }
  }

  /** Losing the Succeeded write once bills a job for no nodes, and records its run twice. */
  lemma LostWriteBillsNothing(cfg: Config, spec: JobSpec) returns (w: World)
    requires Startable(cfg, spec)
    ensures Reachable(cfg, spec, w) && w.status.phase.Succeeded?
    ensures w.status.results.Some? && w.status.results.value.billedNodes == 0
    ensures Recordable(spec) ==> Records(w.log) == 2
  {
    var w0 := ReachCollecting(cfg, spec);
    ReachedBare(w0.log);
    var a := CALM.(phaseWrite := false);
    OnStep(cfg, spec, INITIAL, w0, Reconciled(a));
    CollectOnce(cfg, spec, w0, false);
    var w1 := Reconcile(cfg, spec, w0, a);
    OnStep(cfg, spec, INITIAL, w1, Reconciled(CALM));
    CollectOnce(cfg, spec, w1, true);
    assert CALM.(phaseWrite := true) == CALM;
    w := Reconcile(cfg, spec, w1, CALM);
  }

  lemma ReachedBare(log: seq<Event>)
    requires |log| == 2 && log[0].CreateCalled? && log[1].ManifestApplied?
    ensures Records(log) == 0
  {
    assert log == ([] + [log[0]]) + [log[1]];
    RecordsGrow([], log[0]);
    RecordsGrow([log[0]], log[1]);
  }

  /** A job whose calibration default is zero fails in Provisioning for want of a topology. */
  lemma ZeroDefaultLosesTopology(cfg: Config, spec: JobSpec) returns (w: World)
    requires cfg.defaultNodes == 0 && ValidSpec(spec) && spec.objective.Some?
    ensures Reachable(cfg, spec, w) && w.log == [GaveUp(MissingTopology)] && w.status.phase.Failed?
  {
    LeadsNowhere(cfg, spec, INITIAL);
    var w0 := INITIAL.(finalizer := true);
    LeadsOn(cfg, spec, INITIAL, INITIAL, Reconciled(CALM));
    LeadsOn(cfg, spec, INITIAL, w0, Reconciled(CALM));
    var w1 := Reconcile(cfg, spec, w0, CALM);
    LeadsOn(cfg, spec, INITIAL, w1, Reconciled(CALM));
    w := Reconcile(cfg, spec, w1, CALM);
  }

  /** In objective mode the missing-topology failure can happen exactly when the calibration default is zero. */
  lemma MissingTopologyIff(cfg: Config, spec: JobSpec)
    requires ValidSpec(spec) && spec.objective.Some?
    ensures (exists w :: Reachable(cfg, spec, w) && GaveUp(MissingTopology) in w.log) <==> cfg.defaultNodes == 0
  {
    if cfg.defaultNodes == 0 {
      var w := ZeroDefaultLosesTopology(cfg, spec);
      assert GaveUp(MissingTopology) in w.log;
    } else {
      forall w | Reachable(cfg, spec, w) ensures GaveUp(MissingTopology) !in w.log {
        LifecycleConduct.TopologyNeverMissing(cfg, spec, w);
      }
    }
  }

  /** A job is given up as invalid in some run exactly if its specification is defective. */
  lemma RejectedIff(cfg: Config, spec: JobSpec)
    ensures (exists w :: Reachable(cfg, spec, w) && GaveUp(InvalidSpec) in w.log) <==> LifecycleConduct.Defective(spec)
  {
    if LifecycleConduct.Defective(spec) {
      LeadsNowhere(cfg, spec, INITIAL);
      LeadsOn(cfg, spec, INITIAL, INITIAL, Reconciled(CALM));
      var w0 := INITIAL.(finalizer := true);
      LeadsOn(cfg, spec, INITIAL, w0, Reconciled(CALM));
      var w1 := Reconcile(cfg, spec, w0, CALM);
      assert w1.log == [GaveUp(InvalidSpec)];
      assert GaveUp(InvalidSpec) in w1.log;
    } else {
      forall w | Reachable(cfg, spec, w) ensures GaveUp(InvalidSpec) !in w.log {
        LifecycleConduct.ReachableConducted(cfg, spec, w);
      }
    }
  }
}

/** What takes a job from each phase to the next one, read off the answers that one reconcile gets. */
module LifecycleTransitions {
  import opened Common
  import opened Solver
  import opened Manifest
  import opened Lifecycle
  import opened Invariant
  import opened LogFacts
  import opened LifecyclePaths
  import HistoryWriter

  /** The manifest cannot be applied as it is, however often that is tried. */
  predicate Unlaunchable(cfg: Config, spec: JobSpec, a: Answers) {
    spec.backend !in cfg.registered || NoManifest(spec, a) || a.apply.ApplyInvalid?
  }

  /** A pytorch or Spark job lacks the section of its backend, or another backend cannot generate its manifest. */
  predicate NoManifest(spec: JobSpec, a: Answers) {
    || (spec.backend.PyTorch? && spec.pytorch.None?)
    || (spec.backend.Spark? && !spec.hasSparkSpec)
    || ((spec.backend.PlainJob? || spec.backend.OtherBackend?) && a.manifestFails)
  }

  lemma PhaseStatus(w: World, p: Phase, landed: bool)
    ensures SetPhase(w, p, landed).status == if landed then w.status.(phase := p) else w.status
  {
  }

  lemma GiveUpStatus(w: World, cause: Cause, landed: bool)
    ensures GiveUp(w, cause, landed).status == if landed then w.status.(phase := Failed) else w.status
  {
  }

  lemma NoManifestIff(spec: JobSpec, a: Answers)
    ensures NoManifest(spec, a) <==> ManifestFails(spec, a)
  {
  }

  /** What the solver says to a job that needs it. */
  ghost function Answer(cfg: Config, spec: JobSpec, a: Answers): Result<Topology>
    requires ValidSpec(spec) && spec.objective.Some? && Loadable(a.history)
  {
    Solve(cfg.defaultNodes, spec.backend, spec.objective.value, a.history, a.price)
  }

  /** A job that is new, or was set back from a phase the operator does not know. */
  predicate Unstarted(p: Phase) {
    p.NoPhase? || p.Pending?
  }

  /** A phase the operator does not know is set back, and nothing else changes. */
  lemma UnknownPhaseStartsOver(cfg: Config, spec: JobSpec, w: World, a: Answers)
    requires Consistent(w, a) && Tended(w) && w.status.phase.Unrecognised?
    ensures a.phaseWrite ==> Reconcile(cfg, spec, w, a) == w.(status := w.status.(phase := Pending))
    ensures !a.phaseWrite ==> Reconcile(cfg, spec, w, a) == Note(w, Lost(OtherWrite))
  {
  }

  predicate AsksSolver(spec: JobSpec, w: World) {
    spec.objective.Some? && w.status.resolved.nodes == 0
  }

  /** A new job moves on with a valid specification and, if it has to ask the solver, with its stored answer. */
  lemma LeavesPendingIff(cfg: Config, spec: JobSpec, w: World, a: Answers)
    requires Consistent(w, a) && Tended(w) && Unstarted(w.status.phase)
    ensures var w' := Reconcile(cfg, spec, w, a);
            if !ValidSpec(spec) then
              !w'.status.phase.Provisioning? && (w'.status.phase.Failed? <==> a.phaseWrite)
            else if !w.status.startSet && !a.startWrite then
              w'.status == w.status
            else if AsksSolver(spec, w) then
              ResolvedBy(w.status, w'.status, Answer(cfg, spec, a), a)
            else
              && w'.status.resolved == w.status.resolved && !w'.status.phase.Failed?
              && (w'.status.phase.Provisioning? <==> a.phaseWrite)
  {
    if ValidSpec(spec) && (w.status.startSet || a.startWrite) {
      ResolveIff(cfg, spec, w.(status := w.status.(startSet := true)), a);
    }
  }

  /** The answer is stored before the phase; an error fails the job. */
  predicate ResolvedBy(s: Status, s': Status, answer: Result<Topology>, a: Answers) {
    && (s'.phase.Provisioning? <==> answer.Ok? && a.resolvedWrite && a.phaseWrite)
    && (s'.phase.Failed? <==> answer.Err? && a.phaseWrite)
    && s'.resolved == if answer.Ok? && a.resolvedWrite then answer.value else s.resolved
  }

  lemma ResolveIff(cfg: Config, spec: JobSpec, w: World, a: Answers)
    requires Loadable(a.history) && ValidSpec(spec) && Unstarted(w.status.phase)
    ensures var s := Resolve(cfg, spec, w, a).status;
            if AsksSolver(spec, w) then ResolvedBy(w.status, s, Answer(cfg, spec, a), a)
            else s.resolved == w.status.resolved && !s.phase.Failed? && (s.phase.Provisioning? <==> a.phaseWrite)
  {
    if AsksSolver(spec, w) {
      AnswerIff(w, Answer(cfg, spec, a), a);
    } else {
      PhaseStatus(w, Provisioning, a.phaseWrite);
    }
  }

  lemma AnswerIff(w: World, answer: Result<Topology>, a: Answers)
    requires Unstarted(w.status.phase)
    ensures var w' := match answer
                      case Err => GiveUp(w, SolverError, a.phaseWrite)
                      case Ok(rt) =>
                        if !a.resolvedWrite then Note(w, Lost(OtherWrite))
                        else SetPhase(w.(status := w.status.(resolved := rt)), Provisioning, a.phaseWrite);
            ResolvedBy(w.status, w'.status, answer, a)
  {
    match answer
    case Err => GiveUpStatus(w, SolverError, a.phaseWrite);
    case Ok(rt) => PhaseStatus(w.(status := w.status.(resolved := rt)), Provisioning, a.phaseWrite);
  }

  // ----- the pool

  /** The pool is counted in full: its creation is done and enough nodes are ready. */
  predicate Counted(spec: JobSpec, w: World, a: Answers) {
    && w.status.op.Some? && a.poll.PollDone?
    && a.readyNodes.Some? && a.readyNodes.value >= Desired(spec, w.status.resolved)
  }

  /** A pool is given up for a refused call, or a failed poll of its creation. */
  predicate Refused(w: World, a: Answers) {
    if w.status.op.Some? then a.poll.PollError? else !a.crashBeforeCreate && a.create.CreateRefused?
  }

  /** A job waits for its pool until it is counted in full; then the pool and the time it took are stored. */
  lemma LeavesProvisioningIff(cfg: Config, spec: JobSpec, w: World, a: Answers)
    requires Consistent(w, a) && Tended(w) && w.status.phase.Provisioning? && !AsksSolver(spec, w)
    ensures var w' := Reconcile(cfg, spec, w, a);
            var started := w.status.provStartSet || a.provStartWrite;
            && (w'.status.phase.Ready? <==> started && Counted(spec, w, a) && a.recordWrite && a.phaseWrite)
            && (w'.status.phase.Failed? <==> started && Refused(w, a) && a.phaseWrite)
            && (w'.status.phase.Ready? ==>
                  && w'.status.op.None? && w'.status.poolSize == a.readyNodes.value
                  && w'.status.results.Some? && w'.status.results.value.provisioningTime == Some(a.provSeconds))
  {
    var w1 := w.(status := w.status.(provStartSet := true));
    StartedForm(cfg, spec, w, a);
    if w.status.op.Some? {
      PollIff(spec, w1, a);
    } else if !a.crashBeforeCreate {
      RequestIff(spec, w1, a);
    }
  }

  lemma StartedForm(cfg: Config, spec: JobSpec, w: World, a: Answers)
    requires Consistent(w, a) && Tended(w) && w.status.phase.Provisioning? && !AsksSolver(spec, w)
    ensures var w1 := w.(status := w.status.(provStartSet := true));
            var w' := if !w.status.provStartSet && !a.provStartWrite then Note(w, Lost(OtherWrite))
                      else if w.status.op.Some? then PollPool(w1, Desired(spec, w.status.resolved), a)
                      else if a.crashBeforeCreate then w1
                      else RequestPool(w1, Desired(spec, w.status.resolved), a);
            Reconcile(cfg, spec, w, a) == w'
  {
  }

  lemma RequestIff(spec: JobSpec, w: World, a: Answers)
    requires w.status.phase.Provisioning? && w.status.op.None? && !a.crashBeforeCreate
    ensures var p := RequestPool(w, Desired(spec, w.status.resolved), a).status.phase;
            p == if Refused(w, a) && a.phaseWrite then Failed else Provisioning
  {
    var w1 := CallCreate(w, Desired(spec, w.status.resolved), a.create);
    CreateStatus(w, Desired(spec, w.status.resolved), a.create);
    GiveUpStatus(w1, CreateRefusal, a.phaseWrite);
  }

  lemma CreateStatus(w: World, desired: int, answer: CreateAnswer)
    ensures CallCreate(w, desired, answer).status == w.status
  {
  }

  lemma PollIff(spec: JobSpec, w: World, a: Answers)
    requires w.status.phase.Provisioning? && w.status.op.Some?
    ensures var s := PollPool(w, Desired(spec, w.status.resolved), a).status;
            && (s.phase.Ready? <==> Counted(spec, w, a) && a.recordWrite && a.phaseWrite)
            && (s.phase.Failed? <==> Refused(w, a) && a.phaseWrite)
            && (s.phase.Ready? ==>
                  && s.op.None? && s.poolSize == a.readyNodes.value
                  && s.results.Some? && s.results.value.provisioningTime == Some(a.provSeconds))
  {
    var desired := Desired(spec, w.status.resolved);
    if a.poll.PollError? {
      PollErrorStatus(w, a);
    } else if Counted(spec, w, a) {
      assert PollPool(w, desired, a) == PoolReady(w, a.readyNodes.value, a);
      CountedStatus(w, a.readyNodes.value, a);
    } else {
      WaitingStatus(w, desired, a);
    }
  }

  lemma WaitingStatus(w: World, desired: int, a: Answers)
    requires !a.poll.PollError? && !(a.poll.PollDone? && a.readyNodes.Some? && a.readyNodes.value >= desired)
    ensures PollPool(w, desired, a).status.phase == w.status.phase
  {
  }

  lemma PollErrorStatus(w: World, a: Answers)
    ensures SetPhase(CallDelete(Note(w, GaveUp(PollFailure)), a.delete), Failed, a.phaseWrite).status
         == if a.phaseWrite then w.status.(phase := Failed) else w.status
  {
    var w1 := CallDelete(Note(w, GaveUp(PollFailure)), a.delete);
    assert w1.status == w.status;
    PhaseStatus(w1, Failed, a.phaseWrite);
  }

  lemma CountedStatus(w: World, ready: int, a: Answers)
    requires w.status.phase.Provisioning?
    ensures var s := PoolReady(w, ready, a).status;
            && (s.phase == if a.recordWrite && a.phaseWrite then Ready else Provisioning)
            && (a.recordWrite ==>
                  && s.op.None? && s.poolSize == ready
                  && s.results.Some? && s.results.value.provisioningTime == Some(a.provSeconds))
  {
  }

  /** While nodes are missing the count is stored and the operation kept, so that no second pool is asked for. */
  lemma WaitsForNodes(cfg: Config, spec: JobSpec, w: World, a: Answers)
    requires Consistent(w, a) && Tended(w) && w.status.phase.Provisioning? && !AsksSolver(spec, w)
    requires w.status.provStartSet && w.status.op.Some? && a.poll.PollDone?
    requires a.readyNodes.Some? && a.readyNodes.value < Desired(spec, w.status.resolved) && a.sizeWrite
    ensures Reconcile(cfg, spec, w, a) == w.(status := w.status.(poolSize := a.readyNodes.value))
  {
    assert w.(status := w.status.(provStartSet := true)) == w;
  }

  // ----- the job

  /** A ready job runs once its manifest is applied, and fails only for a manifest that never can be. */
  lemma LeavesReadyIff(cfg: Config, spec: JobSpec, w: World, a: Answers)
    requires Consistent(w, a) && Tended(w) && w.status.phase.Ready?
    ensures var w' := Reconcile(cfg, spec, w, a);
            && (w'.status.phase.Running? <==>
                  !Unlaunchable(cfg, spec, a) && a.apply.Applied? && a.jobNameWrite && a.phaseWrite)
            && (w'.status.phase.Failed? <==> Unlaunchable(cfg, spec, a) && a.phaseWrite)
  {
    LaunchIff(cfg, spec, w, a);
  }

  lemma LaunchIff(cfg: Config, spec: JobSpec, w: World, a: Answers)
    requires w.status.phase.Ready? || w.status.phase.Running?
    ensures var p, launched := ReconcileReady(cfg, spec, w, a).status.phase,
                               !Unlaunchable(cfg, spec, a) && a.apply.Applied? && a.jobNameWrite && a.phaseWrite;
            p == if launched then Running
                 else if Unlaunchable(cfg, spec, a) && a.phaseWrite then Failed
                 else w.status.phase
  {
    NoManifestIff(spec, a);
    if spec.backend !in cfg.registered {
      GiveUpStatus(w, UnknownBackend, a.phaseWrite);
    } else if ManifestFails(spec, a) || a.apply.ApplyInvalid? {
      GiveUpStatus(w, BadManifest, a.phaseWrite);
    } else if a.apply.Applied? {
      LaunchStatus(w, if spec.backend.PyTorch? then Some(Split(spec, w.status.resolved)) else None, a);
    }
  }

  lemma LaunchStatus(w: World, replicas: Option<Replicas>, a: Answers)
    ensures Launch(w, replicas, a).status.phase == if a.jobNameWrite && a.phaseWrite then Running else w.status.phase
  {
  }

  /**
   A running job is collected when its backend reports success, and fails when the backend reports a
   failure, when it is not to be restarted and vanished, or when it is and cannot be launched again.
   */
  lemma LeavesRunningIff(cfg: Config, spec: JobSpec, w: World, a: Answers)
    requires Consistent(w, a) && Tended(w) && w.status.phase.Running?
    ensures var w' := Reconcile(cfg, spec, w, a);
            var known := spec.backend in cfg.registered;
            && (w'.status.phase.Collecting? <==> known && a.job.JobSucceeded? && a.phaseWrite)
            && (w'.status.phase.Failed? <==>
                  && a.phaseWrite
                  && (!known || a.job.JobFailed?
                      || (a.job.JobMissing? && !spec.restartOnFailure)
                      || (a.job.JobMissing? && a.resetWrite && Unlaunchable(cfg, spec, a))))
  {
    if spec.backend in cfg.registered {
      match a.job
      case JobUnreadable =>
      case JobMissing => RestartIff(cfg, spec, w, a);
      case _ => FollowIff(w, a);
    }
  }

  lemma RestartIff(cfg: Config, spec: JobSpec, w: World, a: Answers)
    requires w.status.phase.Running?
    ensures var p := Restart(cfg, spec, w, a).status.phase;
            !p.Collecting? && (p.Failed? <==> a.resetWrite && Unlaunchable(cfg, spec, a) && a.phaseWrite)
  {
    if a.resetWrite {
      LaunchIff(cfg, spec, w.(status := w.status.(trainStartSet := false)), a);
    }
  }

  lemma FollowIff(w: World, a: Answers)
    requires w.status.phase.Running?
    ensures var p := FollowJob(NoteStart(w, a), a).status.phase;
            && (p.Collecting? <==> a.job.JobSucceeded? && a.phaseWrite)
            && (p.Failed? <==> a.job.JobFailed? && a.phaseWrite)
  {
    var w1 := NoteStart(w, a);
    assert w1.status.phase.Running?;
    PhaseStatus(w1, Collecting, a.phaseWrite);
    GiveUpStatus(w1, JobError, a.phaseWrite);
  }

  /** The start of the training is noted as soon as the backend knows it, and kept until a restart. */
  lemma StartIsNoted(cfg: Config, spec: JobSpec, w: World, a: Answers)
    requires Consistent(w, a) && Tended(w) && w.status.phase.Running? && spec.backend in cfg.registered
    requires !a.job.JobMissing? && !a.job.JobUnreadable?
    ensures Reconcile(cfg, spec, w, a).status.trainStartSet
       <==> w.status.trainStartSet || (a.startTimeKnown && a.trainStartWrite)
  {
    KeepsStart(NoteStart(w, a), a);
  }

  lemma KeepsStart(w: World, a: Answers)
    ensures FollowJob(w, a).status.trainStartSet == w.status.trainStartSet
  {
    PhaseStatus(w, Collecting, a.phaseWrite);
    GiveUpStatus(w, JobError, a.phaseWrite);
  }

  /** Under the restart policy a vanished job is launched again in the same reconcile, and timed anew. */
  lemma VanishedIsRelaunched(cfg: Config, spec: JobSpec, w: World, a: Answers)
    requires Consistent(w, a) && Tended(w) && w.status.phase.Running? && a.job.JobMissing?
    requires spec.restartOnFailure && !Unlaunchable(cfg, spec, a) && a.apply.Applied?
    requires a.resetWrite && a.jobNameWrite && a.phaseWrite
    ensures var w' := Reconcile(cfg, spec, w, a);
            && w'.status == w.status.(trainStartSet := false, jobNamed := true) && w'.pool == w.pool
            && |w'.log| == |w.log| + 1 && w'.log[..|w.log|] == w.log && w'.log[|w.log|].ManifestApplied?
  {
    NoManifestIff(spec, a);
    var w1 := w.(status := w.status.(trainStartSet := false));
    assert Reconcile(cfg, spec, w, a)
        == Launch(w1, if spec.backend.PyTorch? then Some(Split(spec, w1.status.resolved)) else None, a);
  }

  /** Without it the job fails, its pool untouched. */
  lemma VanishedIsFailed(cfg: Config, spec: JobSpec, w: World, a: Answers)
    requires Consistent(w, a) && Tended(w) && w.status.phase.Running? && a.job.JobMissing?
    requires !spec.restartOnFailure && spec.backend in cfg.registered && a.phaseWrite
    ensures Reconcile(cfg, spec, w, a) == w.(status := w.status.(phase := Failed), log := w.log + [GaveUp(JobVanished)])
  {
  }

  // ----- the results

  /** Collecting ends with its two final writes, whatever became of the deletion and of the record. */
  lemma LeavesCollectingIff(cfg: Config, spec: JobSpec, w: World, a: Answers)
    requires Consistent(w, a) && Tended(w) && w.status.phase.Collecting?
    ensures Reconcile(cfg, spec, w, a).status.phase.Succeeded?
       <==> !a.crashBeforeHistory && a.resultsWrite && a.phaseWrite
  {
    var w1 := TearDown(w, a);
    assert w1.status.phase.Collecting?;
  }

  /** What the backend reports of a run that makes it fit for the history. */
  predicate Telling(a: Answers) {
    && a.metrics.Some?
    && (HistoryWriter.Totals(a.metrics.value, a.trainSeconds)
        || (a.metrics.value.rate.Parsed? && a.metrics.value.rate.value != 0.0))
  }

  lemma RecordIff(cfg: Config, spec: JobSpec, s: Status, a: Answers)
    requires Admitted(spec) && ValidSpec(spec) && Desired(spec, s.resolved) >= 1
    ensures var r := RecordOf(cfg, spec, s, a);
            && (r.Some? <==> Recordable(spec) && spec.backend in cfg.registered && s.trainStartSet && Telling(a))
            && (r.Some? ==> r.value.trainingSeconds == a.trainSeconds && r.value.nodes == Desired(spec, s.resolved))
  {
    var trainingTime := if s.trainStartSet then Parsed(a.trainSeconds) else Unset;
    var provisioningTime := if s.results.Some? && s.results.value.provisioningTime.Some?
                            then Parsed(s.results.value.provisioningTime.value) else Unset;
    var metrics := if spec.backend in cfg.registered then a.metrics else None;
    var nodes := HistoryNodes(spec, s.resolved);
    HistoryWriter.RecordedIff(spec.backend, trainingTime, provisioningTime, metrics, nodes);
    HistoryWriter.EntryFacts(spec.backend, trainingTime, provisioningTime, metrics, nodes);
    assert HistoryWriter.Reports(spec.backend) && nodes != 0 <==> Recordable(spec);
  }

  lemma OneMore(log: seq<Event>, e: Event)
    ensures Records(log + [e]) == Records(log) + if e.HistoryWritten? then 1 else 0
  {
    assert (log + [e])[..|log|] == log;
  }

  lemma FinishRecords(w: World, a: Answers)
    ensures Records(Finish(w, a).log) == Records(w.log)
  {
    OneMore(w.log, Lost(ResultsWrite));
    OneMore(w.log, Lost(SucceededWrite));
  }

  lemma TearDownRecords(w: World, a: Answers)
    ensures var w1 := TearDown(w, a);
            Records(w1.log) == Records(w.log) && w1.status == w.status.(op := w1.status.op)
  {
    var w1 := CallDelete(w, a.delete);
    var e := DeleteCalled(w.status.phase, a.delete.DeleteAccepted? || (a.delete.DeleteFailed? && a.delete.effect));
    assert w1.log == w.log + [e] && w1.status == w.status;
    OneMore(w.log, e);
    if a.delete.DeleteAccepted? && !a.deleteOpWrite {
      OneMore(w1.log, Lost(OtherWrite));
    }
  }

  /**
   A step of Collecting adds one record exactly if the job is of the kind that is recorded, its start was
   noted, and its backend, still registered, has something to tell.
   */
  lemma RunIsRecordedIff(cfg: Config, spec: JobSpec, w: World, a: Answers)
    requires Admitted(spec) && Inv(spec, w) && Consistent(w, a) && Tended(w) && w.status.phase.Collecting?
    ensures var recorded := && !a.crashBeforeHistory && a.historyWrite && Recordable(spec)
                            && spec.backend in cfg.registered && w.status.trainStartSet && Telling(a);
            Records(Reconcile(cfg, spec, w, a).log) == Records(w.log) + if recorded then 1 else 0
  {
    var w1 := TearDown(w, a);
    TearDownRecords(w, a);
    RecordIff(cfg, spec, w1.status, a);
    if !a.crashBeforeHistory {
      var record := RecordOf(cfg, spec, w1.status, a);
      FinishRecords(w1, a);
      if record.Some? {
        OneMore(w1.log, HistoryWritten(record.value));
        FinishRecords(Note(w1, HistoryWritten(record.value)), a);
      }
    }
  }

  // ----- the object

  /** Asked to, the object goes with its finalizer, once its pool is being deleted or gone, or was not asked about. */
  lemma RemovedIff(cfg: Config, spec: JobSpec, w: World, a: Answers)
    requires Consistent(w, a) && w.exists_ && w.deleting
    ensures var w' := Reconcile(cfg, spec, w, a);
            && (!w'.exists_ <==> a.finalizerWrite
                                 && (w.status.phase.Succeeded? || a.delete.DeleteAccepted? || a.delete.DeleteNotFound?))
            && w'.status == w.status
            && (w.status.phase.Succeeded? ==> w'.pool == w.pool)
            && (!w.status.phase.Succeeded? && a.delete.DeleteAccepted? ==> w'.pool.Deleting?)
  {
  }

  /** A new object is guarded by its finalizer before anything else is done for it. */
  lemma GuardedFirst(cfg: Config, spec: JobSpec, w: World, a: Answers)
    requires Consistent(w, a) && w.exists_ && !w.deleting && !w.finalizer
    ensures var w' := Reconcile(cfg, spec, w, a);
            w'.finalizer == a.finalizerWrite && w'.status == w.status && w'.pool == w.pool
  {
  }
}

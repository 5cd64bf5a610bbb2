/** What every reachable world of the lifecycle satisfies. */
module Invariant {
  import opened Common
  import opened Solver
  import opened Manifest
  import opened Lifecycle
  import HistoryFit
  import HistoryWriter

  // ----- kinds of events

  predicate Answered(e: Event) {
    e.CreateCalled? && e.answered
  }

  /** The two lost writes after which a create call may be repeated. */
  predicate Excuse(e: Event) {
    e == Lost(OperationIdWrite) || e == Lost(ReadyWrite)
  }

  predicate PoolStarted(e: Event) {
    e.CreateCalled? && e.effect
  }

  predicate PoolEnded(e: Event) {
    e.DeleteCalled? && e.effect
  }

  /** The lost writes that make a finished job collect its results again. */
  predicate FinalLoss(e: Event) {
    e == Lost(ResultsWrite) || e == Lost(SucceededWrite)
  }

  // ----- what a log amounts to

  datatype Tally = Tally(
    unexcused: bool,      // a create call was answered, and nothing excuses another one
    repeats: bool,        // a create call was made without excuse
    deletedSince: bool,   // a delete call took effect since the pool was last created
    tornDown: bool,       // a delete call took effect in Collecting
    histories: nat,       // history records written
    finalLosses: nat,     // results and Succeeded writes lost
    succeededLost: bool,  // a Succeeded write was lost
    missing: bool         // a provisioning step found no topology
  )

  const NO_TALLY := Tally(false, false, false, false, 0, 0, false, false)

  function Count(t: Tally, e: Event): Tally {
    Tally(
      Answered(e) || (t.unexcused && !Excuse(e)),
      t.repeats || (e.CreateCalled? && t.unexcused),
      PoolEnded(e) || (t.deletedSince && !PoolStarted(e)),
      t.tornDown || e == DeleteCalled(Collecting, true),
      t.histories + (if e.HistoryWritten? then 1 else 0),
      t.finalLosses + (if FinalLoss(e) then 1 else 0),
      t.succeededLost || e == Lost(SucceededWrite),
      t.missing || e == GaveUp(MissingTopology))
  }

  function TallyOf(log: seq<Event>): Tally {
    if log == [] then NO_TALLY else Count(TallyOf(log[..|log| - 1]), log[|log| - 1])
  }

  // ----- the invariant

  /** Assumptions on the deployment and on what the API server admits. */
  predicate Deployed(cfg: Config, spec: JobSpec) {
    cfg.defaultNodes >= 1 && Admitted(spec)
  }

  /** The resolved topology is unset, or fit to be an answer of the solver. */
  predicate ResolvedOk(spec: JobSpec, rt: Topology) {
    || rt == NO_TOPOLOGY
    || (&& spec.objective.Some? && rt.nodes >= 1
        && (spec.backend.PyTorch? ==> rt.masterReplicas == 1 && rt.workerReplicas == rt.nodes - 1))
  }

  /** The phases in which the pool has been counted in full. */
  predicate Equipped(p: Phase) {
    p.Ready? || p.Running? || p.Collecting? || p.Succeeded?
  }

  predicate PoolAgrees(w: World, t: Tally) {
    && (w.pool.Up? <==> w.created && !t.deletedSince)
    && (w.pool.Creating? ==> !w.created && !t.deletedSince)
    && (w.pool.Deleting? ==> t.deletedSince)
    && (t.tornDown ==> t.deletedSince && (w.status.phase.Collecting? || w.status.phase.Succeeded?))
  }

  predicate ObjectAgrees(w: World, t: Tally) {
    && (w.exists_ && !w.finalizer ==> w.status == INITIAL.status && !w.deleting)
    && (w.status.phase.NoPhase? ==> w.status.op.None? && w.pool.Absent? && !w.created && t == NO_TALLY)
    && (!w.exists_ ==> w.pool.Absent? || w.pool.Deleting? || w.status.phase.Succeeded?)
  }

  predicate PhaseAgrees(spec: JobSpec, w: World, t: Tally) {
    var s, desired := w.status, Desired(spec, w.status.resolved);
    && !t.repeats && !t.missing
    && !s.phase.Pending? && !s.phase.Unrecognised?
    && (s.phase.Provisioning? || Equipped(s.phase) ==> ValidSpec(spec) && desired >= 1)
    && (s.phase.Provisioning? ==> s.op != Some(DeleteOp) && (s.op.None? ==> !t.unexcused))
    && (s.phase.Ready? || s.phase.Running? ==> s.op.None? && s.poolSize >= desired)
    && (Equipped(s.phase) ==> w.created && s.results.Some? && s.results.value.provisioningTime.Some?)
    && (s.phase.Collecting? || s.phase.Succeeded? ==> s.op != Some(CreateOp))
  }

  predicate RecordsAgree(spec: JobSpec, w: World, t: Tally) {
    var s, desired := w.status, Desired(spec, w.status.resolved);
    && (!s.phase.Collecting? && !s.phase.Succeeded? ==> t.histories == 0 && t.finalLosses == 0 && !t.succeededLost)
    && (s.phase.Collecting? ==>
          && t.histories <= t.finalLosses
          && (if t.succeededLost then s.poolSize == 0 else s.poolSize >= desired))
    && (s.phase.Succeeded? ==>
          && t.histories <= t.finalLosses + 1
          && s.results.Some?
          && (if t.succeededLost then s.results.value.billedNodes == 0 else s.results.value.billedNodes >= desired))
  }

  /** The part of the invariant that reads the log through its tally only. */
  predicate Agrees(spec: JobSpec, w: World, t: Tally) {
    && ResolvedOk(spec, w.status.resolved)
    && PoolAgrees(w, t) && ObjectAgrees(w, t)
    && PhaseAgrees(spec, w, t) && RecordsAgree(spec, w, t)
  }

  /** An event carries the settled node count. */
  predicate EventOk(spec: JobSpec, resolved: Topology, e: Event) {
    match e
    case CreateCalled(nodes, _, _) => nodes == Desired(spec, resolved) >= 1
    case HistoryWritten(entry) => entry.nodes == Desired(spec, resolved)
    case ManifestApplied(replicas) =>
      && Desired(spec, resolved) >= 1
      && if replicas.Some? then spec.backend.PyTorch? && spec.pytorch.Some? && replicas.value == Split(spec, resolved)
         else !spec.backend.PyTorch?
    case _ => true
  }

  predicate EventsOk(spec: JobSpec, resolved: Topology, log: seq<Event>) {
    forall i | 0 <= i < |log| :: EventOk(spec, resolved, log[i])
  }

  predicate Numberless(e: Event) {
    e.Lost? || e.DeleteCalled? || e.GaveUp?
  }

  /** Nothing in the log carries a node count. */
  predicate Unnumbered(log: seq<Event>) {
    forall i | 0 <= i < |log| :: Numberless(log[i])
  }

  ghost predicate LogAgrees(spec: JobSpec, s: Status, log: seq<Event>) {
    && EventsOk(spec, s.resolved, log)
    && (s.phase.NoPhase? ==> Unnumbered(log))
  }

  ghost predicate Inv(spec: JobSpec, w: World) {
    Agrees(spec, w, TallyOf(w.log)) && LogAgrees(spec, w.status, w.log)
  }

  lemma InitialInv(spec: JobSpec)
    ensures Inv(spec, INITIAL)
  {
  }

  // ----- one event or one write at a time

  lemma Extend(spec: JobSpec, resolved: Topology, log: seq<Event>, e: Event)
    requires EventsOk(spec, resolved, log) && EventOk(spec, resolved, e)
    ensures TallyOf(log + [e]) == Count(TallyOf(log), e) && EventsOk(spec, resolved, log + [e])
    ensures Unnumbered(log) && Numberless(e) ==> Unnumbered(log + [e])
  {
    assert (log + [e])[..|log|] == log;
  }

  /** Losing a write that no property follows. */
  lemma LostKeeps(spec: JobSpec, w: World, write: Write)
    requires Inv(spec, w) && (write.OtherWrite? || write.FailedWrite? || write.LaunchWrite?)
    ensures Inv(spec, Note(w, Lost(write)))
  {
    Extend(spec, w.status.resolved, w.log, Lost(write));
  }

  /** Giving up for a reason that is not a missing topology. */
  lemma NoticeKeeps(spec: JobSpec, w: World, cause: Cause)
    requires Inv(spec, w) && !cause.MissingTopology?
    ensures Inv(spec, Note(w, GaveUp(cause)))
  {
    Extend(spec, w.status.resolved, w.log, GaveUp(cause));
  }

  lemma FailedKeeps(spec: JobSpec, w: World, landed: bool)
    requires Inv(spec, w) && w.exists_ && w.finalizer && !w.status.phase.Collecting? && !w.status.phase.Succeeded?
    ensures Inv(spec, SetPhase(w, Failed, landed))
  {
    if landed {
      assert SetPhase(w, Failed, landed) == w.(status := w.status.(phase := Failed));
      FailedLands(spec, w);
    } else {
      assert SetPhase(w, Failed, landed) == Note(w, Lost(FailedWrite));
      LostKeeps(spec, w, FailedWrite);
    }
  }

  lemma FailedLands(spec: JobSpec, w: World)
    requires Inv(spec, w) && w.exists_ && w.finalizer && !w.status.phase.Collecting? && !w.status.phase.Succeeded?
    ensures Inv(spec, w.(status := w.status.(phase := Failed)))
  {
  }

  lemma GiveUpKeeps(spec: JobSpec, w: World, cause: Cause, landed: bool)
    requires Inv(spec, w) && w.exists_ && w.finalizer && !w.status.phase.Collecting? && !w.status.phase.Succeeded?
    requires !cause.MissingTopology?
    ensures Inv(spec, GiveUp(w, cause, landed))
  {
    NoticeKeeps(spec, w, cause);
    FailedKeeps(spec, Note(w, GaveUp(cause)), landed);
  }

  // ----- every step keeps it

  lemma PendingKeeps(cfg: Config, spec: JobSpec, w: World, a: Answers)
    requires Deployed(cfg, spec) && Inv(spec, w) && Consistent(w, a)
    requires w.exists_ && w.finalizer && w.status.phase.NoPhase?
    ensures Inv(spec, ReconcilePending(cfg, spec, w, a))
  {
    if !ValidSpec(spec) {
      GiveUpKeeps(spec, w, InvalidSpec, a.phaseWrite);
    } else if !w.status.startSet && !a.startWrite {
      LostKeeps(spec, w, OtherWrite);
    } else {
      ResolveKeeps(cfg, spec, w.(status := w.status.(startSet := true)), a);
    }
  }

  lemma ResolveKeeps(cfg: Config, spec: JobSpec, w: World, a: Answers)
    requires Deployed(cfg, spec) && Inv(spec, w) && Consistent(w, a) && ValidSpec(spec)
    requires w.exists_ && w.finalizer && w.status.phase.NoPhase?
    ensures Inv(spec, Resolve(cfg, spec, w, a))
  {
    if spec.objective.Some? && w.status.resolved.nodes == 0 {
      SolverRange(cfg.defaultNodes, spec.backend, spec.objective.value, a.history, a.price);
      var answer := Solve(cfg.defaultNodes, spec.backend, spec.objective.value, a.history, a.price);
      match answer
      case Err => GiveUpKeeps(spec, w, SolverError, a.phaseWrite);
      case Ok(rt) =>
        if a.resolvedWrite {
          ScheduledKeeps(spec, w.(status := w.status.(resolved := rt)), a.phaseWrite);
        } else {
          LostKeeps(spec, w, OtherWrite);
        }
    } else {
      ScheduledKeeps(spec, w, a.phaseWrite);
    }
  }

  lemma ScheduledKeeps(spec: JobSpec, w: World, landed: bool)
    requires w.exists_ && w.finalizer && w.status.phase.NoPhase? && ValidSpec(spec) && Admitted(spec)
    requires ResolvedOk(spec, w.status.resolved) && (spec.objective.Some? ==> w.status.resolved.nodes != 0)
    requires Agrees(spec, w, TallyOf(w.log)) && Unnumbered(w.log)
    ensures Inv(spec, SetPhase(w, Provisioning, landed))
  {
    Extend(spec, w.status.resolved, w.log, Lost(OtherWrite));
  }

  /** A delete call keeps the invariant whenever the cloud's answer fits the pool. */
  lemma CallDeleteKeeps(spec: JobSpec, w: World, answer: DeleteAnswer)
    requires Inv(spec, w) && w.exists_ && w.finalizer
    requires answer.DeleteAccepted? || (answer.DeleteFailed? && answer.effect) ==> !w.pool.Absent?
    ensures Inv(spec, CallDelete(w, answer))
  {
    if answer.DeleteAccepted? || (answer.DeleteFailed? && answer.effect) {
      EndedKeeps(spec, w);
    } else {
      Extend(spec, w.status.resolved, w.log, DeleteCalled(w.status.phase, false));
    }
  }

  lemma EndedKeeps(spec: JobSpec, w: World)
    requires Inv(spec, w) && w.exists_ && w.finalizer && !w.pool.Absent?
    ensures Inv(spec, Note(w, DeleteCalled(w.status.phase, true)).(pool := Deleting))
  {
    Extend(spec, w.status.resolved, w.log, DeleteCalled(w.status.phase, true));
  }

  lemma DeleteKeeps(spec: JobSpec, w: World, a: Answers)
    requires Inv(spec, w) && Consistent(w, a) && w.exists_ && w.deleting
    ensures Inv(spec, ReconcileDelete(w, a))
  {
    if w.status.phase.Succeeded? {
      LostKeeps(spec, w, OtherWrite);
    } else {
      CallDeleteKeeps(spec, w, a.delete);
      LostKeeps(spec, CallDelete(w, a.delete), OtherWrite);
    }
  }

  lemma ProvisioningKeeps(spec: JobSpec, w: World, a: Answers)
    requires Admitted(spec) && Inv(spec, w) && Consistent(w, a)
    requires w.exists_ && w.finalizer && w.status.phase.Provisioning?
    ensures Inv(spec, ReconcileProvisioning(spec, w, a))
  {
    var w1 := w.(status := w.status.(provStartSet := true));
    if !w.status.provStartSet && !a.provStartWrite {
      LostKeeps(spec, w, OtherWrite);
    } else if w.status.op.Some? {
      PollKeeps(spec, w1, a);
    } else if !a.crashBeforeCreate {
      CreateKeeps(spec, w1, a);
    }
  }

  lemma PollKeeps(spec: JobSpec, w: World, a: Answers)
    requires Inv(spec, w) && Consistent(w, a)
    requires w.exists_ && w.finalizer && w.status.phase.Provisioning? && w.status.op.Some?
    ensures Inv(spec, PollPool(w, Desired(spec, w.status.resolved), a))
  {
    match a.poll
    case PollPending =>
    case PollError =>
      var w1 := Note(w, GaveUp(PollFailure));
      NoticeKeeps(spec, w, PollFailure);
      CallDeleteKeeps(spec, w1, a.delete);
      FailedKeeps(spec, CallDelete(w1, a.delete), a.phaseWrite);
    case PollDone => CountNodesKeeps(spec, w, a);
  }

  lemma CreateKeeps(spec: JobSpec, w: World, a: Answers)
    requires Inv(spec, w) && Consistent(w, a)
    requires w.exists_ && w.finalizer && w.status.phase.Provisioning? && w.status.op.None?
    ensures Inv(spec, RequestPool(w, Desired(spec, w.status.resolved), a))
  {
    if a.create.CreateAccepted? {
      AcceptedKeeps(spec, w, a.opWrite);
    } else {
      RefusedKeeps(spec, w, a.create);
      GiveUpKeeps(spec, CallCreate(w, Desired(spec, w.status.resolved), a.create), CreateRefusal, a.phaseWrite);
    }
  }

  lemma RefusedKeeps(spec: JobSpec, w: World, answer: CreateAnswer)
    requires Inv(spec, w) && w.exists_ && w.finalizer && w.status.phase.Provisioning? && w.status.op.None?
    requires answer.CreateRefused? && (answer.effect ==> w.pool.Absent?)
    ensures Inv(spec, CallCreate(w, Desired(spec, w.status.resolved), answer))
  {
    var desired := Desired(spec, w.status.resolved);
    Extend(spec, w.status.resolved, w.log, CreateCalled(desired, answer.effect, false));
  }

  /** The world after an accepted create call, before its operation ID is stored. */
  function Accepted(spec: JobSpec, w: World): World {
    CallCreate(w, Desired(spec, w.status.resolved), CreateAccepted)
  }

  /** An accepted create call whose operation ID is stored, or whose ID write is lost. */
  lemma AcceptedKeeps(spec: JobSpec, w: World, landed: bool)
    requires Inv(spec, w) && w.exists_ && w.finalizer && w.status.phase.Provisioning? && w.status.op.None?
    requires w.pool.Absent?
    ensures var w1 := Accepted(spec, w);
            Inv(spec, Patch(w1, landed, OperationIdWrite, w1.status.(op := Some(CreateOp))))
  {
    var w1 := Accepted(spec, w);
    if landed {
      StoredKeeps(spec, w);
    } else {
      assert Patch(w1, landed, OperationIdWrite, w1.status.(op := Some(CreateOp))) == Note(w1, Lost(OperationIdWrite));
      IdLostKeeps(spec, w);
    }
  }

  lemma StoredKeeps(spec: JobSpec, w: World)
    requires Inv(spec, w) && w.exists_ && w.finalizer && w.status.phase.Provisioning? && w.status.op.None?
    requires w.pool.Absent?
    ensures var w1 := Accepted(spec, w); Inv(spec, w1.(status := w1.status.(op := Some(CreateOp))))
  {
    Extend(spec, w.status.resolved, w.log, CreateCalled(Desired(spec, w.status.resolved), true, true));
  }

  lemma IdLostKeeps(spec: JobSpec, w: World)
    requires Inv(spec, w) && w.exists_ && w.finalizer && w.status.phase.Provisioning? && w.status.op.None?
    requires w.pool.Absent?
    ensures Inv(spec, Note(Accepted(spec, w), Lost(OperationIdWrite)))
  {
    var w1 := Accepted(spec, w);
    Extend(spec, w.status.resolved, w.log, CreateCalled(Desired(spec, w.status.resolved), true, true));
    Extend(spec, w.status.resolved, w1.log, Lost(OperationIdWrite));
  }

  lemma CountNodesKeeps(spec: JobSpec, w: World, a: Answers)
    requires Inv(spec, w) && Consistent(w, a)
    requires w.exists_ && w.finalizer && w.status.phase.Provisioning? && w.status.op.Some? && a.poll.PollDone?
    ensures Inv(spec, CountNodes(w, Desired(spec, w.status.resolved), a))
  {
    assert !w.status.op.value.DeleteOp?;
    if a.readyNodes.Some? {
      if a.readyNodes.value < Desired(spec, w.status.resolved) {
        ResizeKeeps(spec, w, a.readyNodes.value, a.sizeWrite);
      } else {
        PoolReadyKeeps(spec, w, a.readyNodes.value, a);
      }
    }
  }

  lemma ResizeKeeps(spec: JobSpec, w: World, ready: int, landed: bool)
    requires Inv(spec, w) && w.status.phase.Provisioning?
    ensures Inv(spec, Patch(w, landed, OtherWrite, w.status.(poolSize := ready)))
  {
    LostKeeps(spec, w, OtherWrite);
  }

  lemma PoolReadyKeeps(spec: JobSpec, w: World, ready: int, a: Answers)
    requires Inv(spec, w) && w.exists_ && w.finalizer && w.status.phase.Provisioning? && w.created
    requires ready >= Desired(spec, w.status.resolved)
    ensures Inv(spec, PoolReady(w, ready, a))
  {
    if !a.recordWrite {
      LostKeeps(spec, w, OtherWrite);
    } else if !a.phaseWrite {
      Extend(spec, w.status.resolved, w.log, Lost(ReadyWrite));
    }
  }

  /** Entering Running, again or for the first time, or leaving it for Collecting. */
  lemma AdvanceKeeps(spec: JobSpec, w: World, p: Phase, landed: bool)
    requires Inv(spec, w) && w.exists_ && w.finalizer
    requires w.status.phase.Ready? || w.status.phase.Running?
    requires p.Running? || p.Collecting?
    ensures Inv(spec, SetPhase(w, p, landed))
  {
    LostKeeps(spec, w, PhaseWriteOf(p));
  }

  lemma AppliedKeeps(spec: JobSpec, w: World, replicas: Option<Replicas>)
    requires Inv(spec, w) && (w.status.phase.Ready? || w.status.phase.Running?)
    requires EventOk(spec, w.status.resolved, ManifestApplied(replicas))
    ensures Inv(spec, Note(w, ManifestApplied(replicas)))
  {
    Extend(spec, w.status.resolved, w.log, ManifestApplied(replicas));
  }

  lemma LaunchKeeps(spec: JobSpec, w: World, replicas: Option<Replicas>, a: Answers)
    requires Inv(spec, w) && w.exists_ && w.finalizer && (w.status.phase.Ready? || w.status.phase.Running?)
    requires EventOk(spec, w.status.resolved, ManifestApplied(replicas))
    ensures Inv(spec, Launch(w, replicas, a))
  {
    var w1 := Note(w, ManifestApplied(replicas));
    AppliedKeeps(spec, w, replicas);
    if a.jobNameWrite {
      AdvanceKeeps(spec, w1.(status := w1.status.(jobNamed := true)), Running, a.phaseWrite);
    } else {
      LostKeeps(spec, w1, LaunchWrite);
    }
  }

  lemma ReadyKeeps(cfg: Config, spec: JobSpec, w: World, a: Answers)
    requires Inv(spec, w) && w.exists_ && w.finalizer && (w.status.phase.Ready? || w.status.phase.Running?)
    ensures Inv(spec, ReconcileReady(cfg, spec, w, a))
  {
    if spec.backend !in cfg.registered {
      GiveUpKeeps(spec, w, UnknownBackend, a.phaseWrite);
    } else if ManifestFails(spec, a) || a.apply.ApplyInvalid? {
      GiveUpKeeps(spec, w, BadManifest, a.phaseWrite);
    } else if a.apply.Applied? {
      LaunchKeeps(spec, w, if spec.backend.PyTorch? then Some(Split(spec, w.status.resolved)) else None, a);
    }
  }

  lemma RestartKeeps(cfg: Config, spec: JobSpec, w: World, a: Answers)
    requires Inv(spec, w) && w.exists_ && w.finalizer && w.status.phase.Running?
    ensures Inv(spec, Restart(cfg, spec, w, a))
  {
    LostKeeps(spec, w, OtherWrite);
    ReadyKeeps(cfg, spec, w.(status := w.status.(trainStartSet := false)), a);
  }

  lemma RunningKeeps(cfg: Config, spec: JobSpec, w: World, a: Answers)
    requires Inv(spec, w) && w.exists_ && w.finalizer && w.status.phase.Running?
    ensures Inv(spec, ReconcileRunning(cfg, spec, w, a))
  {
    if spec.backend !in cfg.registered {
      GiveUpKeeps(spec, w, UnknownBackend, a.phaseWrite);
    } else {
      match a.job
      case JobUnreadable =>
      case JobMissing =>
        GiveUpKeeps(spec, w, JobVanished, a.phaseWrite);
        RestartKeeps(cfg, spec, w, a);
      case _ =>
        LostKeeps(spec, w, OtherWrite);
        FollowJobKeeps(spec, NoteStart(w, a), a);
    }
  }

  lemma FollowJobKeeps(spec: JobSpec, w: World, a: Answers)
    requires Inv(spec, w) && w.exists_ && w.finalizer && w.status.phase.Running?
    ensures Inv(spec, FollowJob(w, a))
  {
    AdvanceKeeps(spec, w, Collecting, a.phaseWrite);
    GiveUpKeeps(spec, w, JobError, a.phaseWrite);
  }

  lemma CollectingKeeps(cfg: Config, spec: JobSpec, w: World, a: Answers)
    requires Inv(spec, w) && Consistent(w, a) && w.exists_ && w.finalizer && w.status.phase.Collecting?
    ensures Inv(spec, ReconcileCollecting(cfg, spec, w, a))
  {
    TearDownKeeps(spec, w, a);
    if !a.crashBeforeHistory {
      var w1 := TearDown(w, a);
      var record := RecordOf(cfg, spec, w1.status, a);
      if record.Some? && a.historyWrite {
        RecordedNodes(cfg, spec, w1.status, a);
        Extend(spec, w1.status.resolved, w1.log, HistoryWritten(record.value));
        FinishKeeps(spec, Note(w1, HistoryWritten(record.value)), a);
      } else {
        FinishKeeps(spec, w1, a);
      }
    }
  }

  lemma TearDownKeeps(spec: JobSpec, w: World, a: Answers)
    requires Inv(spec, w) && Consistent(w, a) && w.exists_ && w.finalizer && w.status.phase.Collecting?
    ensures var w1 := TearDown(w, a);
            Inv(spec, w1) && w1.exists_ && w1.finalizer && w1.status.phase.Collecting?
  {
    CallDeleteKeeps(spec, w, a.delete);
    LostKeeps(spec, CallDelete(w, a.delete), OtherWrite);
  }

  /** A history record carries the requested node count. */
  lemma RecordedNodes(cfg: Config, spec: JobSpec, s: Status, a: Answers)
    requires ValidSpec(spec)
    ensures var record := RecordOf(cfg, spec, s, a);
            record.Some? ==> record.value.nodes == Desired(spec, s.resolved)
  {
  }

  /** The world after a history record, or after none: one record more than lost writes explain. */
  predicate Closing(spec: JobSpec, w: World) {
    var t := TallyOf(w.log);
    && w.exists_ && w.finalizer && w.status.phase.Collecting?
    && ResolvedOk(spec, w.status.resolved)
    && PoolAgrees(w, t) && ObjectAgrees(w, t) && PhaseAgrees(spec, w, t)
    && t.histories <= t.finalLosses + 1
    && (if t.succeededLost then w.status.poolSize == 0 else w.status.poolSize >= Desired(spec, w.status.resolved))
    && EventsOk(spec, w.status.resolved, w.log)
  }

  lemma FinishKeeps(spec: JobSpec, w: World, a: Answers)
    requires Closing(spec, w)
    ensures Inv(spec, Finish(w, a))
  {
    if !a.resultsWrite {
      Extend(spec, w.status.resolved, w.log, Lost(ResultsWrite));
    } else {
      DoneKeeps(spec, w, a.phaseWrite);
    }
  }

  lemma DoneKeeps(spec: JobSpec, w: World, landed: bool)
    requires Closing(spec, w)
    ensures var results := Some(Results(w.status.results.value.provisioningTime, w.status.poolSize));
            Inv(spec, SetPhase(w.(status := w.status.(results := results, poolSize := 0)), Succeeded, landed))
  {
    if !landed {
      Extend(spec, w.status.resolved, w.log, Lost(SucceededWrite));
    }
  }

  lemma SucceededKeeps(spec: JobSpec, w: World, a: Answers)
    requires Inv(spec, w) && w.exists_ && w.finalizer && w.status.phase.Succeeded?
    ensures Inv(spec, ReconcileSucceeded(w, a))
  {
    LostKeeps(spec, w, OtherWrite);
  }

  lemma ReconcileKeeps(cfg: Config, spec: JobSpec, w: World, a: Answers)
    requires Deployed(cfg, spec) && Inv(spec, w) && Consistent(w, a)
    ensures Inv(spec, Reconcile(cfg, spec, w, a))
  {
    if w.exists_ {
      if w.deleting {
        DeleteKeeps(spec, w, a);
      } else if !w.finalizer {
        LostKeeps(spec, w, OtherWrite);
      } else {
        match w.status.phase
        case NoPhase => PendingKeeps(cfg, spec, w, a);
        case Provisioning => ProvisioningKeeps(spec, w, a);
        case Ready => ReadyKeeps(cfg, spec, w, a);
        case Running => RunningKeeps(cfg, spec, w, a);
        case Collecting => CollectingKeeps(cfg, spec, w, a);
        case Succeeded => SucceededKeeps(spec, w, a);
        case _ =>
      }
    }
  }

  lemma StepKeeps(cfg: Config, spec: JobSpec, w: World, act: Action)
    requires Deployed(cfg, spec) && Inv(spec, w) && Enabled(w, act)
    ensures Inv(spec, Step(cfg, spec, w, act))
  {
    if act.Reconciled? {
      ReconcileKeeps(cfg, spec, w, act.answers);
    }
  }

  lemma {:induction false} RunKeeps(cfg: Config, spec: JobSpec, worlds: seq<World>, acts: seq<Action>, i: nat)
    requires Deployed(cfg, spec) && Stretch(cfg, spec, worlds, acts) && Inv(spec, worlds[0]) && i <= |acts|
    ensures Inv(spec, worlds[i])
  {
    if i > 0 {
      RunKeeps(cfg, spec, worlds, acts, i - 1);
      StretchStep(cfg, spec, worlds, acts, i - 1);
      StepKeeps(cfg, spec, worlds[i - 1], acts[i - 1]);
    }
  }

  lemma LeadsKeeps(cfg: Config, spec: JobSpec, w: World, w': World)
    requires Deployed(cfg, spec) && Inv(spec, w) && Leads(cfg, spec, w, w')
    ensures Inv(spec, w')
  {
    var worlds, acts :| Stretch(cfg, spec, worlds, acts) && worlds[0] == w && worlds[|acts|] == w';
    RunKeeps(cfg, spec, worlds, acts, |acts|);
  }

  lemma ReachableInv(cfg: Config, spec: JobSpec, w: World)
    requires Deployed(cfg, spec) && Reachable(cfg, spec, w)
    ensures Inv(spec, w)
  {
    InitialInv(spec);
    LeadsKeeps(cfg, spec, INITIAL, w);
  }
}

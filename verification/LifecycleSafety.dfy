/** Safety of the lifecycle over all runs: lost writes, crashes, refusals and deletions included. */
module LifecycleSafety {
  import opened Common
  import opened Solver
  import opened Manifest
  import opened Lifecycle
  import opened Invariant
  import opened LogFacts

  // ----- node pools

  predicate Live(pool: Pool) {
    pool.Creating? || pool.Up?
  }

  /** The object is gone and nobody will delete the pool any more. */
  predicate Orphaned(w: World) {
    !w.exists_ && Live(w.pool)
  }

  /** A pool is orphaned exactly when the job succeeded without any deletion of its pool having taken effect. */
  lemma OrphanedIff(cfg: Config, spec: JobSpec, w: World)
    requires Deployed(cfg, spec) && Reachable(cfg, spec, w) && !w.exists_
    ensures Orphaned(w) <==> w.status.phase.Succeeded? && !EndedSince(w.log)
    ensures Orphaned(w) ==> DeleteCalled(Collecting, true) !in w.log
    ensures !Orphaned(w) ==> w.pool.Absent? || w.pool.Deleting?
  {
    ReachableInv(cfg, spec, w);
    TallyMeans(w.log);
  }

  /** No pool is requested before the finalizer guards it, and none while the phase is unset. */
  lemma NoPoolWithoutFinalizer(cfg: Config, spec: JobSpec, w: World)
    requires Deployed(cfg, spec) && Reachable(cfg, spec, w)
    requires (w.exists_ && !w.finalizer) || w.status.phase.NoPhase?
    ensures w.pool.Absent? && forall e | e in w.log :: !e.CreateCalled?
  {
    ReachableInv(cfg, spec, w);
    forall e | e in w.log ensures !e.CreateCalled? {
      var i :| 0 <= i < |w.log| && w.log[i] == e;
    }
  }

  /** A second create call follows an answered one only if the operation ID or the Ready write was lost between them. */
  lemma SecondCreateNeedsLoss(cfg: Config, spec: JobSpec, w: World, i: nat, j: nat)
    requires Deployed(cfg, spec) && Reachable(cfg, spec, w)
    requires i < j < |w.log| && w.log[j].CreateCalled? && w.log[i].CreateCalled? && w.log[i].answered
    ensures exists k :: i < k < j && (w.log[k] == Lost(OperationIdWrite) || w.log[k] == Lost(ReadyWrite))
  {
    ReachableInv(cfg, spec, w);
    TallyMeans(w.log);
    assert Answered(w.log[i]);
    var k :| i < k < j && Excuse(w.log[k]);
  }

  /** A job that is ready or running has no operation in flight and all the nodes it asked for. */
  lemma ReadyHasItsNodes(cfg: Config, spec: JobSpec, w: World)
    requires Deployed(cfg, spec) && Reachable(cfg, spec, w) && (w.status.phase.Ready? || w.status.phase.Running?)
    ensures w.status.op.None? && w.status.poolSize >= Desired(spec, w.status.resolved) >= 1 && w.created
  {
    ReachableInv(cfg, spec, w);
  }

  /** Pool requests, replicas and history records of a job all carry one node count. */
  lemma OneNodeCount(cfg: Config, spec: JobSpec, w: World, e: Event)
    requires Deployed(cfg, spec) && Reachable(cfg, spec, w) && e in w.log
    ensures var desired := Desired(spec, w.status.resolved);
            && (e.CreateCalled? ==> e.nodes == desired >= 1)
            && (e.HistoryWritten? ==> e.entry.nodes == desired)
            && (e.ManifestApplied? && e.replicas.Some? ==>
                  (e.replicas.value.masters + e.replicas.value.workers == desired
                   <==> spec.objective.Some? || (spec.pytorch.Some? && FillsPool(spec))))
  {
    ReachableInv(cfg, spec, w);
    var i :| 0 <= i < |w.log| && w.log[i] == e;
    assert EventOk(spec, w.status.resolved, e);
    if e.ManifestApplied? && e.replicas.Some? && spec.objective.None? {
      ExplicitReplicasFillPoolIff(spec, w.status.resolved);
    }
  }

  /**
   Every manifest of a pytorch job in objective mode has one master and a worker for every other node;
   with an explicit topology it has the masters asked for, or one, and a worker for every node left over.
   Jobs of other backends have no replica counts.
   */
  lemma ReplicasApplied(cfg: Config, spec: JobSpec, w: World, replicas: Option<Replicas>)
    requires Deployed(cfg, spec) && Reachable(cfg, spec, w) && ManifestApplied(replicas) in w.log
    ensures replicas.Some? <==> spec.backend.PyTorch?
    ensures replicas.Some? ==> spec.pytorch.Some?
    ensures replicas.Some? ==>
              var r, desired := replicas.value, Desired(spec, w.status.resolved);
              var given := spec.pytorch.value.masterReplicas;
              if spec.objective.Some? then r == Replicas(1, desired - 1)
              else && r.masters == (if given != 0 then given else 1)
                   && r.workers == (if FillsPool(spec) then desired - r.masters else 0)
  {
    ReachableInv(cfg, spec, w);
    var e := ManifestApplied(replicas);
    var i :| 0 <= i < |w.log| && w.log[i] == e;
    assert EventOk(spec, w.status.resolved, e);
    if replicas.Some? && spec.objective.None? {
      ExplicitReplicas(spec, w.status.resolved);
    }
  }

  /**
   For any specification, valid or not: the count that would be recorded is the one that is requested unless
   the count is left to its default, a pytorch job has no section of its own, or the backend is not recorded.
   */
  lemma RecordedNodesIff(spec: JobSpec, resolved: Topology)
    requires Admitted(spec)
    ensures HistoryNodes(spec, resolved) == Desired(spec, resolved)
       <==> || spec.objective.Some?
            || (spec.backend.PyTorch? && (if spec.pytorch.Some? then spec.nodes >= 1 else spec.nodes <= 1))
            || (spec.backend.Spark? && spec.nodes >= 1)
  {
  }

  // ----- records and bills

  /** A failed job never enters the history; any job does once, and once more for each lost final write. */
  lemma HistoryRecordsBounded(cfg: Config, spec: JobSpec, w: World)
    requires Deployed(cfg, spec) && Reachable(cfg, spec, w)
    ensures Records(w.log) <= FinalLosses(w.log) + 1
    ensures !w.status.phase.Collecting? && !w.status.phase.Succeeded? ==> Records(w.log) == 0
  {
    ReachableInv(cfg, spec, w);
    TallyMeans(w.log);
  }

  /** A succeeded job is billed for all its nodes unless a Succeeded write was lost; then it is billed for none. */
  lemma BilledForNoneIff(cfg: Config, spec: JobSpec, w: World)
    requires Deployed(cfg, spec) && Reachable(cfg, spec, w) && w.status.phase.Succeeded?
    ensures w.status.results.Some? && w.status.results.value.provisioningTime.Some?
    ensures var billed := w.status.results.value.billedNodes;
            && (billed == 0 <==> Lost(SucceededWrite) in w.log)
            && (billed != 0 ==> billed >= Desired(spec, w.status.resolved))
  {
    ReachableInv(cfg, spec, w);
    TallyMeans(w.log);
  }

  // ----- phases

  predicate Final(p: Phase) {
    p.Succeeded? || p.Failed?
  }

  /** One step of the phase diagram. */
  predicate Follows(p: Phase, q: Phase) {
    || q == p
    || (p.NoPhase? && (q.Provisioning? || q.Failed?))
    || (p.Provisioning? && (q.Ready? || q.Failed?))
    || (p.Ready? && (q.Running? || q.Failed?))
    || (p.Running? && (q.Collecting? || q.Failed?))
    || (p.Collecting? && q.Succeeded?)
  }

  function Rank(p: Phase): nat {
    match p
    case NoPhase => 0
    case Pending => 0
    case Unrecognised => 0
    case Provisioning => 1
    case Ready => 2
    case Running => 3
    case Collecting => 4
    case Succeeded => 5
    case Failed => 5
  }

  /** Forward in the phase diagram, by any number of steps. */
  predicate Precedes(p: Phase, q: Phase) {
    q == p || (Rank(p) < Rank(q) && (q.Failed? ==> !p.Collecting?))
  }

  /** What one step may change of the phase and of the resolved topology. */
  predicate Moves(w: World, w': World) {
    && Follows(w.status.phase, w'.status.phase)
    && (w'.status.resolved == w.status.resolved || (w.status.phase.NoPhase? && w.status.resolved.nodes == 0))
    && (w'.exists_ ==> w.exists_) && (w.deleting ==> w'.deleting)
  }

  lemma SetPhaseMoves(w: World, p: Phase, landed: bool)
    requires Follows(w.status.phase, p)
    ensures Moves(w, SetPhase(w, p, landed))
  {
  }

  lemma GiveUpMoves(w: World, cause: Cause, landed: bool)
    requires Follows(w.status.phase, Failed)
    ensures Moves(w, GiveUp(w, cause, landed))
  {
    SetPhaseMoves(Note(w, GaveUp(cause)), Failed, landed);
  }

  lemma PatchMoves(w: World, landed: bool, write: Write, s: Status)
    requires s.phase == w.status.phase && s.resolved == w.status.resolved
    ensures Moves(w, Patch(w, landed, write, s))
  {
  }

  lemma PendingMoves(cfg: Config, spec: JobSpec, w: World, a: Answers)
    requires Loadable(a.history) && w.status.phase.NoPhase?
    ensures Moves(w, ReconcilePending(cfg, spec, w, a))
  {
    if !ValidSpec(spec) {
      GiveUpMoves(w, InvalidSpec, a.phaseWrite);
    } else if w.status.startSet || a.startWrite {
      ResolveMoves(cfg, spec, w.(status := w.status.(startSet := true)), a);
    }
  }

  lemma ResolveMoves(cfg: Config, spec: JobSpec, w: World, a: Answers)
    requires Loadable(a.history) && ValidSpec(spec) && w.status.phase.NoPhase?
    ensures Moves(w, Resolve(cfg, spec, w, a))
  {
    if spec.objective.Some? && w.status.resolved.nodes == 0 {
      var answer := Solve(cfg.defaultNodes, spec.backend, spec.objective.value, a.history, a.price);
      match answer
      case Err => GiveUpMoves(w, SolverError, a.phaseWrite);
      case Ok(rt) => SetPhaseMoves(w.(status := w.status.(resolved := rt)), Provisioning, a.phaseWrite);
    } else {
      SetPhaseMoves(w, Provisioning, a.phaseWrite);
    }
  }

  lemma ProvisioningMoves(spec: JobSpec, w: World, a: Answers)
    requires w.status.phase.Provisioning?
    ensures Moves(w, ReconcileProvisioning(spec, w, a))
  {
    var w1 := w.(status := w.status.(provStartSet := true));
    GiveUpMoves(w, MissingTopology, a.phaseWrite);
    RequestMoves(w1, Desired(spec, w.status.resolved), a);
    PollMoves(w1, Desired(spec, w.status.resolved), a);
  }

  lemma RequestMoves(w: World, desired: int, a: Answers)
    requires w.status.phase.Provisioning?
    ensures Moves(w, RequestPool(w, desired, a))
  {
    var w1 := CallCreate(w, desired, a.create);
    GiveUpMoves(w1, CreateRefusal, a.phaseWrite);
    PatchMoves(w1, a.opWrite, OperationIdWrite, w1.status.(op := Some(CreateOp)));
  }

  lemma PollMoves(w: World, desired: int, a: Answers)
    requires w.status.phase.Provisioning?
    ensures Moves(w, PollPool(w, desired, a))
  {
    match a.poll
    case PollPending =>
    case PollError => SetPhaseMoves(CallDelete(Note(w, GaveUp(PollFailure)), a.delete), Failed, a.phaseWrite);
    case PollDone =>
      if a.readyNodes.Some? {
        PatchMoves(w, a.sizeWrite, OtherWrite, w.status.(poolSize := a.readyNodes.value));
        PoolReadyMoves(w, a.readyNodes.value, a);
      }
  }

  lemma PoolReadyMoves(w: World, ready: int, a: Answers)
    requires w.status.phase.Provisioning?
    ensures Moves(w, PoolReady(w, ready, a))
  {
    var billed := if w.status.results.Some? then w.status.results.value.billedNodes else 0;
    var s := w.status.(op := None, poolSize := ready, results := Some(Results(Some(a.provSeconds), billed)));
    SetPhaseMoves(w.(status := s), Ready, a.phaseWrite);
  }

  lemma LaunchMoves(w: World, replicas: Option<Replicas>, a: Answers)
    requires w.status.phase.Ready? || w.status.phase.Running?
    ensures Moves(w, Launch(w, replicas, a))
  {
    var w1 := Note(w, ManifestApplied(replicas));
    SetPhaseMoves(w1.(status := w1.status.(jobNamed := true)), Running, a.phaseWrite);
  }

  lemma ReadyMoves(cfg: Config, spec: JobSpec, w: World, a: Answers)
    requires w.status.phase.Ready? || w.status.phase.Running?
    ensures Moves(w, ReconcileReady(cfg, spec, w, a))
  {
    if spec.backend !in cfg.registered {
      GiveUpMoves(w, UnknownBackend, a.phaseWrite);
    } else if ManifestFails(spec, a) || a.apply.ApplyInvalid? {
      GiveUpMoves(w, BadManifest, a.phaseWrite);
    } else if a.apply.Applied? {
      LaunchMoves(w, if spec.backend.PyTorch? then Some(Split(spec, w.status.resolved)) else None, a);
    }
  }

  lemma RestartMoves(cfg: Config, spec: JobSpec, w: World, a: Answers)
    requires w.status.phase.Running?
    ensures Moves(w, Restart(cfg, spec, w, a))
  {
    var w1 := w.(status := w.status.(trainStartSet := false));
    ReadyMoves(cfg, spec, w1, a);
    assert forall w' | Moves(w1, w') :: Moves(w, w');
  }

  lemma FollowJobMoves(w: World, a: Answers)
    requires w.status.phase.Running?
    ensures Moves(w, FollowJob(NoteStart(w, a), a))
  {
    var w1 := NoteStart(w, a);
    PatchMoves(w, a.trainStartWrite, OtherWrite, w.status.(trainStartSet := true));
    SetPhaseMoves(w1, Collecting, a.phaseWrite);
    GiveUpMoves(w1, JobError, a.phaseWrite);
    assert w1.status.phase.Running? && forall w' | Moves(w1, w') :: Moves(w, w');
  }

  lemma RunningMoves(cfg: Config, spec: JobSpec, w: World, a: Answers)
    requires w.status.phase.Running?
    ensures Moves(w, ReconcileRunning(cfg, spec, w, a))
  {
    if spec.backend !in cfg.registered {
      GiveUpMoves(w, UnknownBackend, a.phaseWrite);
    } else {
      match a.job
      case JobUnreadable =>
      case JobMissing =>
        GiveUpMoves(w, JobVanished, a.phaseWrite);
        RestartMoves(cfg, spec, w, a);
      case _ => FollowJobMoves(w, a);
    }
  }

  lemma CollectingMoves(cfg: Config, spec: JobSpec, w: World, a: Answers)
    requires w.status.phase.Collecting?
    ensures Moves(w, ReconcileCollecting(cfg, spec, w, a))
  {
    var w1 := TearDown(w, a);
    assert w1.status.phase.Collecting? && Moves(w, w1);
    assert Moves(w1, Finish(w1, a));
  }

  lemma HandlerMoves(cfg: Config, spec: JobSpec, w: World, a: Answers)
    requires Loadable(a.history) && w.exists_ && !w.deleting && w.finalizer
    requires !w.status.phase.Pending? && !w.status.phase.Unrecognised?
    ensures Moves(w, Reconcile(cfg, spec, w, a))
  {
    match w.status.phase
    case NoPhase => PendingMoves(cfg, spec, w, a);
    case Provisioning => ProvisioningMoves(spec, w, a);
    case Ready => ReadyMoves(cfg, spec, w, a);
    case Running => RunningMoves(cfg, spec, w, a);
    case Collecting => CollectingMoves(cfg, spec, w, a);
    case _ =>
  }

  lemma ReconcileMoves(cfg: Config, spec: JobSpec, w: World, a: Answers)
    requires Loadable(a.history) && !w.status.phase.Pending? && !w.status.phase.Unrecognised?
    ensures Moves(w, Reconcile(cfg, spec, w, a))
  {
    if w.exists_ && !w.deleting && w.finalizer {
      HandlerMoves(cfg, spec, w, a);
    }
  }

  lemma StepMoves(cfg: Config, spec: JobSpec, w: World, act: Action)
    requires Deployed(cfg, spec) && Inv(spec, w) && Enabled(w, act)
    ensures Moves(w, Step(cfg, spec, w, act))
  {
    if act.Reconciled? {
      ReconcileMoves(cfg, spec, w, act.answers);
    }
  }

  /** How two worlds of a run compare: phase forward, final phases and resolved topologies kept, no object reborn. */
  predicate Forward(w: World, w': World) {
    && Precedes(w.status.phase, w'.status.phase)
    && (Final(w.status.phase) ==> w'.status.phase == w.status.phase)
    && (w.status.resolved.nodes != 0 ==> w'.status.resolved == w.status.resolved)
    && (w'.exists_ ==> w.exists_)
  }

  lemma MovesForward(w: World, w1: World, w2: World)
    requires Forward(w, w1) && Moves(w1, w2)
    ensures Forward(w, w2)
  {
  }

  lemma {:induction false} RunsMoveForward(cfg: Config, spec: JobSpec, worlds: seq<World>, acts: seq<Action>,
                                           i: nat, j: nat)
    requires Deployed(cfg, spec) && Run(cfg, spec, worlds, acts) && i <= j <= |acts|
    ensures Forward(worlds[i], worlds[j])
    decreases j
  {
    if i < j {
      RunsMoveForward(cfg, spec, worlds, acts, i, j - 1);
      RunMoves(cfg, spec, worlds, acts, j - 1);
      MovesForward(worlds[i], worlds[j - 1], worlds[j]);
    }
  }

  lemma RunMoves(cfg: Config, spec: JobSpec, worlds: seq<World>, acts: seq<Action>, k: nat)
    requires Deployed(cfg, spec) && Run(cfg, spec, worlds, acts) && k < |acts|
    ensures Moves(worlds[k], worlds[k + 1])
  {
    InitialInv(spec);
    RunKeeps(cfg, spec, worlds, acts, k);
    StretchStep(cfg, spec, worlds, acts, k);
    StepMoves(cfg, spec, worlds[k], acts[k]);
  }
}

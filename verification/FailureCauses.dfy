/** What a failed job leaves of its pool, by the reason for which it was given up. */
module FailureCauses {
  import opened Common
  import opened Solver
  import opened Manifest
  import opened Lifecycle
  import opened Invariant
  import opened LogFacts
  import opened LifecyclePaths

  // ----- what a log says about failures

  /** The reason noted last. */
  function LastCause(log: seq<Event>): Option<Cause> {
    if log == [] then None
    else if log[|log| - 1].GaveUp? then Some(log[|log| - 1].cause)
    else LastCause(log[..|log| - 1])
  }

  datatype Trail = Trail(
    cause: Option<Cause>,   // the reason noted last
    several: bool,          // more than one was noted
    pollFailure: bool,      // a failed poll of the creation was among them
    createCalled: bool,     // a create call was made
    deleteCalled: bool,     // a delete call was made
    deleteEffect: bool,     // a delete call took effect
    elsewhere: bool,        // a delete call was made outside Provisioning
    failedLost: bool        // a Failed write was lost
  )

  const NO_TRAIL := Trail(None, false, false, false, false, false, false, false)

  function Follow(t: Trail, e: Event): Trail {
    Trail(
      if e.GaveUp? then Some(e.cause) else t.cause,
      t.several || (e.GaveUp? && t.cause.Some?),
      t.pollFailure || e == GaveUp(PollFailure),
      t.createCalled || e.CreateCalled?,
      t.deleteCalled || e.DeleteCalled?,
      t.deleteEffect || PoolEnded(e),
      t.elsewhere || (e.DeleteCalled? && !e.phase.Provisioning?),
      t.failedLost || e == Lost(FailedWrite))
  }

  function TrailOf(log: seq<Event>): Trail {
    if log == [] then NO_TRAIL else Follow(TrailOf(log[..|log| - 1]), log[|log| - 1])
  }

  ghost predicate Noted(log: seq<Event>, i: nat) {
    i < |log| && log[i].GaveUp?
  }

  /** At most one reason is noted in the log. */
  ghost predicate AtMostOneCause(log: seq<Event>) {
    forall i, j :: Noted(log, i) && Noted(log, j) ==> i == j
  }

  ghost predicate TrailMeans(t: Trail, log: seq<Event>) {
    && t.cause == LastCause(log)
    && (t.cause.None? ==> forall i :: !Noted(log, i))
    && (!t.several ==> AtMostOneCause(log))
    && (t.pollFailure <==> GaveUp(PollFailure) in log)
    && (t.createCalled <==> exists e :: e in log && e.CreateCalled?)
    && (t.deleteCalled <==> exists e :: e in log && e.DeleteCalled?)
    && (t.deleteEffect <==> exists e :: e in log && PoolEnded(e))
    && (!t.elsewhere ==> forall e :: e in log && e.DeleteCalled? ==> e.phase.Provisioning?)
    && (t.failedLost <==> Lost(FailedWrite) in log)
  }

  lemma NotedGrows(log: seq<Event>, e: Event, i: nat)
    ensures Noted(log + [e], i) <==> Noted(log, i) || (i == |log| && e.GaveUp?)
  {
    if i < |log| {
      assert (log + [e])[i] == log[i];
    }
  }

  lemma CausesGrow(t: Trail, log: seq<Event>, e: Event)
    requires TrailMeans(t, log)
    ensures var t' := Follow(t, e);
            && (t'.cause.None? ==> forall i :: !Noted(log + [e], i))
            && (!t'.several ==> AtMostOneCause(log + [e]))
  {
    forall i: nat
      ensures Noted(log + [e], i) <==> Noted(log, i) || (i == |log| && e.GaveUp?)
    {
      NotedGrows(log, e, i);
    }
  }

  lemma MembersGrow(t: Trail, log: seq<Event>, e: Event)
    requires TrailMeans(t, log)
    ensures var t', log' := Follow(t, e), log + [e];
            && (t'.createCalled <==> exists e :: e in log' && e.CreateCalled?)
            && (t'.deleteCalled <==> exists e :: e in log' && e.DeleteCalled?)
            && (t'.deleteEffect <==> exists e :: e in log' && PoolEnded(e))
            && (!t'.elsewhere ==> forall e :: e in log' && e.DeleteCalled? ==> e.phase.Provisioning?)
  {
    assert e in log + [e];
    assert forall x :: x in log ==> x in log + [e];
  }

  lemma TrailMeansGrows(t: Trail, log: seq<Event>, e: Event)
    requires TrailMeans(t, log)
    ensures TrailMeans(Follow(t, e), log + [e])
  {
    assert (log + [e])[..|log|] == log;
    CausesGrow(t, log, e);
    MembersGrow(t, log, e);
  }

  lemma {:induction false} TrailSays(log: seq<Event>)
    ensures TrailMeans(TrailOf(log), log)
  {
    if log != [] {
      var n := |log| - 1;
      TrailSays(log[..n]);
      TrailMeansGrows(TrailOf(log[..n]), log[..n], log[n]);
      assert log == log[..n] + [log[n]];
    }
  }

  // ----- the invariant

  predicate BeforePool(c: Cause) {
    c.InvalidSpec? || c.SolverError? || c.MissingTopology?
  }

  predicate AfterPool(c: Cause) {
    c.UnknownBackend? || c.BadManifest? || c.JobVanished? || c.JobError?
  }

  predicate Finishing(p: Phase) {
    p.Collecting? || p.Succeeded?
  }

  /** What always holds of the trail. */
  predicate Coherent(t: Trail) {
    && (t.cause.None? ==> !t.several && !t.pollFailure)
    && (t.cause == Some(PollFailure) ==> t.pollFailure)
    && (t.pollFailure && !t.several ==> t.cause == Some(PollFailure))
    && (t.deleteEffect ==> t.deleteCalled)
  }

  /** Until the user asks for the deletion or the job finishes, delete calls answer failed polls of the creation. */
  predicate DeletesAgree(w: World, t: Trail) {
    && (!w.deleting && !Finishing(w.status.phase) ==> !t.elsewhere && (t.deleteCalled <==> t.pollFailure))
    && (!t.deleteCalled && w.created ==> w.pool.Up?)
    && (!t.createCalled ==> w.pool.Absent? && !w.created)
  }

  /** With no Failed write lost, a reason is noted by failed jobs only, and it tells what became of the pool. */
  predicate CauseAgrees(w: World, t: Trail, deletedSince: bool) {
    && (w.status.phase.NoPhase? ==> !t.createCalled)
    && (!t.failedLost && !w.status.phase.Failed? ==> t.cause.None?)
    && (!t.failedLost && w.status.phase.Failed? ==> t.cause.Some? && !t.several)
    && (!t.failedLost && !w.deleting && !Finishing(w.status.phase) ==>
          && (w.status.results.Some? ==> w.pool.Up? && !t.pollFailure)
          && (w.status.results.Some? && w.status.phase.Provisioning? ==> w.status.op.None?)
          && (t.deleteEffect ==> deletedSince)
          && (w.status.phase.Failed? && BeforePool(t.cause.value) ==> !t.createCalled)
          && (w.status.phase.Failed? && AfterPool(t.cause.value) ==> w.status.results.Some?))
  }

  predicate TellsBy(w: World, t: Trail, deletedSince: bool) {
    && Coherent(t) && (deletedSince ==> t.deleteEffect)
    && DeletesAgree(w, t) && CauseAgrees(w, t, deletedSince)
  }

  predicate Tells(w: World) {
    TellsBy(w, TrailOf(w.log), TallyOf(w.log).deletedSince)
  }

  lemma InitialTells()
    ensures Tells(INITIAL)
  {
  }

  // ----- one event or one write at a time

  lemma LogStep(log: seq<Event>, e: Event)
    ensures TrailOf(log + [e]) == Follow(TrailOf(log), e)
    ensures TallyOf(log + [e]).deletedSince <==> PoolEnded(e) || (TallyOf(log).deletedSince && !PoolStarted(e))
  {
    assert (log + [e])[..|log|] == log;
  }

  /** Events that tell nothing about failures. */
  predicate Quiet(e: Event) {
    e.ManifestApplied? || e.HistoryWritten? || (e.Lost? && !e.write.FailedWrite?)
  }

  lemma QuietTells(w: World, e: Event)
    requires Tells(w) && Quiet(e)
    ensures Tells(Note(w, e))
  {
    LogStep(w.log, e);
  }

  /** A patch that leaves phase, operation and results alone. */
  lemma PatchTells(w: World, landed: bool, s: Status)
    requires Tells(w) && s.phase == w.status.phase && s.op == w.status.op && s.results == w.status.results
    ensures Tells(Patch(w, landed, OtherWrite, s))
  {
    QuietTells(w, Lost(OtherWrite));
  }

  /** Any patch of a job that is finishing and keeps doing so. */
  lemma FinishingTells(w: World, landed: bool, write: Write, s: Status)
    requires Tells(w) && Finishing(w.status.phase) && Finishing(s.phase) && !write.FailedWrite?
    ensures Tells(Patch(w, landed, write, s))
  {
    QuietTells(w, Lost(write));
  }

  /** Moving on to a phase other than Failed. */
  lemma PhaseTells(w: World, p: Phase, landed: bool)
    requires Tells(w) && !w.status.phase.Failed? && !Finishing(w.status.phase)
    requires !p.Failed? && !p.NoPhase? && (p.Provisioning? ==> w.status.op.None?)
    ensures Tells(SetPhase(w, p, landed))
  {
    QuietTells(w, Lost(PhaseWriteOf(p)));
  }

  /** A reason to give up that fits the world, other than a failed poll. */
  predicate Fits(cause: Cause, w: World) {
    && !w.status.phase.Failed? && !Finishing(w.status.phase) && !cause.PollFailure?
    && (BeforePool(cause) ==> w.status.phase.NoPhase?)
    && (AfterPool(cause) ==> w.status.results.Some?)
  }

  lemma GiveUpTells(w: World, cause: Cause, landed: bool)
    requires Tells(w) && Fits(cause, w)
    ensures Tells(GiveUp(w, cause, landed))
  {
    var w1 := Note(w, GaveUp(cause));
    if landed {
      GiveUpLands(w, cause);
      assert GiveUp(w, cause, landed) == w1.(status := w.status.(phase := Failed));
    } else {
      GiveUpLost(w, cause);
      assert GiveUp(w, cause, landed) == Note(w1, Lost(FailedWrite));
    }
  }

  lemma GiveUpLands(w: World, cause: Cause)
    requires Tells(w) && Fits(cause, w)
    ensures Tells(Note(w, GaveUp(cause)).(status := w.status.(phase := Failed)))
  {
    LogStep(w.log, GaveUp(cause));
  }

  lemma GiveUpLost(w: World, cause: Cause)
    requires Tells(w) && Fits(cause, w)
    ensures Tells(Note(Note(w, GaveUp(cause)), Lost(FailedWrite)))
  {
    LogStep(w.log, GaveUp(cause));
    LogStep(w.log + [GaveUp(cause)], Lost(FailedWrite));
  }

  lemma CallCreateTells(w: World, nodes: int, answer: CreateAnswer)
    requires Tells(w) && w.status.phase.Provisioning? && w.status.op.None? && !w.deleting
    requires answer.CreateAccepted? || answer.effect ==> w.pool.Absent?
    ensures Tells(CallCreate(w, nodes, answer))
  {
    var effect := answer.CreateAccepted? || answer.effect;
    LogStep(w.log, CreateCalled(nodes, effect, answer.CreateAccepted?));
  }

  lemma StoreTells(w: World, landed: bool)
    requires Tells(w) && w.status.phase.Provisioning? && w.status.op.None? && !w.deleting && w.pool.Creating?
    ensures Tells(Patch(w, landed, OperationIdWrite, w.status.(op := Some(CreateOp))))
  {
    QuietTells(w, Lost(OperationIdWrite));
  }

  predicate Effective(answer: DeleteAnswer) {
    answer.DeleteAccepted? || (answer.DeleteFailed? && answer.effect)
  }

  /** The world after a failed poll of the creation, before the phase is patched. */
  function Discarded(w: World, answer: DeleteAnswer): World {
    CallDelete(Note(w, GaveUp(PollFailure)), answer)
  }

  lemma DiscardedTrail(w: World, answer: DeleteAnswer)
    requires Tells(w) && w.status.phase.Provisioning? && w.status.op.Some? && !w.deleting
    requires Effective(answer) ==> !w.pool.Absent?
    ensures var w1, t, t' := Discarded(w, answer), TrailOf(w.log), TrailOf(Discarded(w, answer).log);
            && t'.cause == Some(PollFailure) && (t'.several <==> t.cause.Some?)
            && t'.pollFailure && t'.createCalled == t.createCalled && t'.deleteCalled && !t'.elsewhere
            && t'.failedLost == t.failedLost
            && (t'.deleteEffect <==> t.deleteEffect || Effective(answer))
            && (TallyOf(w1.log).deletedSince <==> TallyOf(w.log).deletedSince || Effective(answer))
            && w1 == w.(pool := if Effective(answer) then Deleting else w.pool, log := w1.log)
  {
    var log1 := w.log + [GaveUp(PollFailure)];
    LogStep(w.log, GaveUp(PollFailure));
    LogStep(log1, DeleteCalled(Provisioning, Effective(answer)));
  }

  lemma PollFailureLands(w: World, answer: DeleteAnswer)
    requires Tells(w) && w.status.phase.Provisioning? && w.status.op.Some? && !w.deleting
    requires Effective(answer) ==> !w.pool.Absent?
    ensures Tells(Discarded(w, answer).(status := w.status.(phase := Failed)))
  {
    DiscardedTrail(w, answer);
  }

  lemma PollFailureLost(w: World, answer: DeleteAnswer)
    requires Tells(w) && w.status.phase.Provisioning? && w.status.op.Some? && !w.deleting
    requires Effective(answer) ==> !w.pool.Absent?
    ensures Tells(Note(Discarded(w, answer), Lost(FailedWrite)))
  {
    DiscardedTrail(w, answer);
    LogStep(Discarded(w, answer).log, Lost(FailedWrite));
  }

  /** The poll failed: the reason is noted, the pool is to go, the job fails. */
  lemma PollFailureTells(w: World, answer: DeleteAnswer, landed: bool)
    requires Tells(w) && w.status.phase.Provisioning? && w.status.op.Some? && !w.deleting
    requires Effective(answer) ==> !w.pool.Absent?
    ensures Tells(SetPhase(CallDelete(Note(w, GaveUp(PollFailure)), answer), Failed, landed))
  {
    var w1 := Discarded(w, answer);
    assert w1.status == w.status;
    if landed {
      PollFailureLands(w, answer);
      assert SetPhase(w1, Failed, landed) == w1.(status := w.status.(phase := Failed));
    } else {
      PollFailureLost(w, answer);
      assert SetPhase(w1, Failed, landed) == Note(w1, Lost(FailedWrite));
    }
  }

  lemma PoolReadyTells(w: World, ready: int, a: Answers)
    requires Tells(w) && w.status.phase.Provisioning? && w.created && !w.deleting
    ensures Tells(PoolReady(w, ready, a))
  {
    var billed := if w.status.results.Some? then w.status.results.value.billedNodes else 0;
    var s := w.status.(op := None, poolSize := ready, results := Some(Results(Some(a.provSeconds), billed)));
    QuietTells(w, Lost(OtherWrite));
    if a.recordWrite {
      RecordedTells(w, s);
      PhaseTells(w.(status := s), Ready, a.phaseWrite);
    }
  }

  lemma RecordedTells(w: World, s: Status)
    requires Tells(w) && w.status.phase.Provisioning? && w.created && !w.deleting
    requires s.phase.Provisioning? && s.op.None? && s.results.Some?
    ensures Tells(w.(status := s))
  {
  }

  /** A delete call of a job that is finishing, or that its user wants gone. */
  lemma CallDeleteTells(w: World, answer: DeleteAnswer)
    requires Tells(w) && (w.deleting || Finishing(w.status.phase))
    requires Effective(answer) ==> !w.pool.Absent?
    ensures Tells(CallDelete(w, answer))
  {
    LogStep(w.log, DeleteCalled(w.status.phase, Effective(answer)));
  }

  // ----- every step keeps it

  lemma PendingTells(cfg: Config, spec: JobSpec, w: World, a: Answers)
    requires Tells(w) && Loadable(a.history) && w.status.phase.NoPhase? && w.status.op.None?
    ensures Tells(ReconcilePending(cfg, spec, w, a))
  {
    if !ValidSpec(spec) {
      GiveUpTells(w, InvalidSpec, a.phaseWrite);
    } else if !w.status.startSet && !a.startWrite {
      QuietTells(w, Lost(OtherWrite));
    } else {
      var w1 := w.(status := w.status.(startSet := true));
      PatchTells(w, true, w1.status);
      ResolveTells(cfg, spec, w1, a);
    }
  }

  lemma ResolveTells(cfg: Config, spec: JobSpec, w: World, a: Answers)
    requires Tells(w) && Loadable(a.history) && ValidSpec(spec) && w.status.phase.NoPhase? && w.status.op.None?
    ensures Tells(Resolve(cfg, spec, w, a))
  {
    if spec.objective.Some? && w.status.resolved.nodes == 0 {
      var answer := Solve(cfg.defaultNodes, spec.backend, spec.objective.value, a.history, a.price);
      match answer
      case Err => GiveUpTells(w, SolverError, a.phaseWrite);
      case Ok(rt) =>
        var w1 := w.(status := w.status.(resolved := rt));
        PatchTells(w, a.resolvedWrite, w1.status);
        if a.resolvedWrite {
          PhaseTells(w1, Provisioning, a.phaseWrite);
        }
    } else {
      PhaseTells(w, Provisioning, a.phaseWrite);
    }
  }

  lemma ProvisioningTells(spec: JobSpec, w: World, a: Answers)
    requires Admitted(spec) && Inv(spec, w) && Tells(w) && Consistent(w, a)
    requires w.status.phase.Provisioning? && !w.deleting
    ensures Tells(ReconcileProvisioning(spec, w, a))
  {
    if !w.status.provStartSet && !a.provStartWrite {
      QuietTells(w, Lost(OtherWrite));
    } else {
      StartTells(w);
      OperationCreates(spec, w);
      StartedTells(w.(status := w.status.(provStartSet := true)), Desired(spec, w.status.resolved), a);
    }
  }

  lemma OperationCreates(spec: JobSpec, w: World)
    requires Inv(spec, w) && w.status.phase.Provisioning?
    ensures w.status.op.Some? ==> w.status.op == Some(CreateOp)
  {
    assert w.status.op.Some? ==> !w.status.op.value.DeleteOp?;
  }

  lemma StartTells(w: World)
    requires Tells(w)
    ensures Tells(w.(status := w.status.(provStartSet := true)))
  {
  }

  lemma StartedTells(w: World, desired: int, a: Answers)
    requires Tells(w) && w.status.phase.Provisioning? && !w.deleting
    requires a.create.CreateAccepted? || a.create.effect ==> w.pool.Absent?
    requires Effective(a.delete) ==> !w.pool.Absent?
    requires w.status.op.Some? && a.poll.PollDone? ==> w.created
    ensures w.status.op.Some? ==> Tells(PollPool(w, desired, a))
    ensures w.status.op.None? ==> Tells(RequestPool(w, desired, a))
  {
    if w.status.op.Some? {
      PollTells(w, desired, a);
    } else if a.create.CreateAccepted? {
      AcceptTells(w, desired, a);
    } else {
      RefuseTells(w, desired, a);
    }
  }

  lemma AcceptTells(w: World, desired: int, a: Answers)
    requires Tells(w) && w.status.phase.Provisioning? && w.status.op.None? && !w.deleting
    requires a.create.CreateAccepted? && w.pool.Absent?
    ensures Tells(RequestPool(w, desired, a))
  {
    var w1 := CallCreate(w, desired, a.create);
    CallCreateTells(w, desired, a.create);
    StoreTells(w1, a.opWrite);
  }

  lemma RefuseTells(w: World, desired: int, a: Answers)
    requires Tells(w) && w.status.phase.Provisioning? && w.status.op.None? && !w.deleting
    requires a.create.CreateRefused? && (a.create.effect ==> w.pool.Absent?)
    ensures Tells(RequestPool(w, desired, a))
  {
    var w1 := CallCreate(w, desired, a.create);
    assert RequestPool(w, desired, a) == GiveUp(w1, CreateRefusal, a.phaseWrite);
    assert Tells(GiveUp(w1, CreateRefusal, a.phaseWrite)) by {
      CallCreateTells(w, desired, a.create);
      RefusedTells(w, w1, a.phaseWrite);
    }
  }

  lemma RefusedTells(w: World, w1: World, landed: bool)
    requires Tells(w1) && w1.status == w.status && w.status.phase.Provisioning?
    ensures Tells(GiveUp(w1, CreateRefusal, landed))
  {
    GiveUpTells(w1, CreateRefusal, landed);
  }

  lemma PollTells(w: World, desired: int, a: Answers)
    requires Tells(w) && w.status.phase.Provisioning? && w.status.op.Some? && !w.deleting
    requires Effective(a.delete) ==> !w.pool.Absent?
    requires a.poll.PollDone? ==> w.created
    ensures Tells(PollPool(w, desired, a))
  {
    match a.poll
    case PollError => PollFailureTells(w, a.delete, a.phaseWrite);
    case PollPending =>
    case PollDone =>
      if a.readyNodes.Some? {
        if a.readyNodes.value < desired {
          PatchTells(w, a.sizeWrite, w.status.(poolSize := a.readyNodes.value));
        } else {
          PoolReadyTells(w, a.readyNodes.value, a);
        }
      }
  }

  lemma LaunchTells(w: World, replicas: Option<Replicas>, a: Answers)
    requires Tells(w) && (w.status.phase.Ready? || w.status.phase.Running?)
    ensures Tells(Launch(w, replicas, a))
  {
    var w1 := Note(w, ManifestApplied(replicas));
    QuietTells(w, ManifestApplied(replicas));
    if !a.jobNameWrite {
      QuietTells(w1, Lost(LaunchWrite));
    } else {
      PatchTells(w1, true, w1.status.(jobNamed := true));
      PhaseTells(w1.(status := w1.status.(jobNamed := true)), Running, a.phaseWrite);
    }
  }

  lemma ReadyTells(cfg: Config, spec: JobSpec, w: World, a: Answers)
    requires Tells(w) && (w.status.phase.Ready? || w.status.phase.Running?) && w.status.results.Some?
    ensures Tells(ReconcileReady(cfg, spec, w, a))
  {
    if spec.backend !in cfg.registered {
      GiveUpTells(w, UnknownBackend, a.phaseWrite);
    } else if ManifestFails(spec, a) || a.apply.ApplyInvalid? {
      GiveUpTells(w, BadManifest, a.phaseWrite);
    } else if a.apply.Applied? {
      LaunchTells(w, if spec.backend.PyTorch? then Some(Split(spec, w.status.resolved)) else None, a);
    }
  }

  lemma RestartTells(cfg: Config, spec: JobSpec, w: World, a: Answers)
    requires Tells(w) && w.status.phase.Running? && w.status.results.Some?
    ensures Tells(Restart(cfg, spec, w, a))
  {
    var w1 := w.(status := w.status.(trainStartSet := false));
    PatchTells(w, a.resetWrite, w1.status);
    if a.resetWrite {
      ReadyTells(cfg, spec, w1, a);
    }
  }

  lemma RunningTells(cfg: Config, spec: JobSpec, w: World, a: Answers)
    requires Tells(w) && w.status.phase.Running? && w.status.results.Some?
    ensures Tells(ReconcileRunning(cfg, spec, w, a))
  {
    if spec.backend !in cfg.registered {
      GiveUpTells(w, UnknownBackend, a.phaseWrite);
    } else {
      match a.job
      case JobUnreadable =>
      case JobMissing =>
        GiveUpTells(w, JobVanished, a.phaseWrite);
        RestartTells(cfg, spec, w, a);
      case _ => SeenTells(w, a);
    }
  }

  lemma SeenTells(w: World, a: Answers)
    requires Tells(w) && w.status.phase.Running? && w.status.results.Some?
    ensures Tells(FollowJob(NoteStart(w, a), a))
  {
    var w1 := NoteStart(w, a);
    PatchTells(w, a.trainStartWrite, w.status.(trainStartSet := true));
    assert w1.status.phase.Running? && w1.status.results == w.status.results;
    FollowTells(w1, a);
  }

  lemma FollowTells(w: World, a: Answers)
    requires Tells(w) && w.status.phase.Running? && w.status.results.Some?
    ensures Tells(FollowJob(w, a))
  {
    PhaseTells(w, Collecting, a.phaseWrite);
    GiveUpTells(w, JobError, a.phaseWrite);
  }

  lemma TearDownTells(w: World, a: Answers)
    requires Tells(w) && w.status.phase.Collecting? && (Effective(a.delete) ==> !w.pool.Absent?)
    ensures Tells(TearDown(w, a)) && TearDown(w, a).status.phase.Collecting?
  {
    var w1 := CallDelete(w, a.delete);
    CallDeleteTells(w, a.delete);
    FinishingTells(w1, a.deleteOpWrite, OtherWrite, w1.status.(op := Some(DeleteOp)));
  }

  lemma FinishTells(w: World, a: Answers)
    requires Tells(w) && w.status.phase.Collecting?
    ensures Tells(Finish(w, a))
  {
    var provisioning := if w.status.results.Some? then w.status.results.value.provisioningTime else None;
    var s := w.status.(results := Some(Results(provisioning, w.status.poolSize)), poolSize := 0);
    var w1 := Patch(w, a.resultsWrite, ResultsWrite, s);
    FinishingTells(w, a.resultsWrite, ResultsWrite, s);
    if !a.resultsWrite {
      assert Finish(w, a) == w1;
    } else {
      var w2 := Patch(w1, a.phaseWrite, SucceededWrite, s.(phase := Succeeded));
      FinishingTells(w1, a.phaseWrite, SucceededWrite, s.(phase := Succeeded));
      assert Finish(w, a) == w2;
    }
  }

  lemma CollectingTells(cfg: Config, spec: JobSpec, w: World, a: Answers)
    requires Tells(w) && w.status.phase.Collecting? && (Effective(a.delete) ==> !w.pool.Absent?)
    ensures Tells(ReconcileCollecting(cfg, spec, w, a))
  {
    TearDownTells(w, a);
    var w1 := TearDown(w, a);
    if !a.crashBeforeHistory {
      var record := RecordOf(cfg, spec, w1.status, a);
      if record.Some? && a.historyWrite {
        QuietTells(w1, HistoryWritten(record.value));
        FinishTells(Note(w1, HistoryWritten(record.value)), a);
      } else {
        FinishTells(w1, a);
      }
    }
  }

  /** Removing the finalizer, or failing to. */
  lemma RemovalTells(w: World)
    requires Tells(w)
    ensures Tells(w.(finalizer := false, exists_ := false)) && Tells(Note(w, Lost(OtherWrite)))
  {
    QuietTells(w, Lost(OtherWrite));
  }

  lemma DeletionTells(w: World, a: Answers)
    requires Tells(w) && w.deleting && (Effective(a.delete) ==> !w.pool.Absent?)
    ensures Tells(ReconcileDelete(w, a))
  {
    if w.status.phase.Succeeded? {
      RemovalTells(w);
    } else {
      var w1 := CallDelete(w, a.delete);
      CallDeleteTells(w, a.delete);
      RemovalTells(w1);
    }
  }

  lemma ReconcileTells(cfg: Config, spec: JobSpec, w: World, a: Answers)
    requires Deployed(cfg, spec) && Inv(spec, w) && Tells(w) && Consistent(w, a) && w.exists_
    ensures Tells(Reconcile(cfg, spec, w, a))
  {
    if w.deleting {
      DeletionTells(w, a);
    } else if !w.finalizer {
      QuietTells(w, Lost(OtherWrite));
    } else {
      match w.status.phase
      case NoPhase => PendingTells(cfg, spec, w, a);
      case Provisioning => ProvisioningTells(spec, w, a);
      case Ready => ReadyTells(cfg, spec, w, a);
      case Running => RunningTells(cfg, spec, w, a);
      case Collecting => CollectingTells(cfg, spec, w, a);
      case Succeeded => FinishingTells(w, a.opWrite, OtherWrite, w.status.(op := None));
      case _ =>
    }
  }

  /** What the cloud and the user do. */
  lemma OutsideTells(cfg: Config, spec: JobSpec, w: World, act: Action)
    requires Inv(spec, w) && Tells(w) && Enabled(w, act) && !act.Reconciled?
    ensures Tells(Step(cfg, spec, w, act))
  {
  }

  lemma StepTells(cfg: Config, spec: JobSpec, w: World, act: Action)
    requires Deployed(cfg, spec) && Inv(spec, w) && Tells(w) && Enabled(w, act)
    ensures Tells(Step(cfg, spec, w, act))
  {
    if !act.Reconciled? {
      OutsideTells(cfg, spec, w, act);
    } else if w.exists_ {
      ReconcileTells(cfg, spec, w, act.answers);
    }
  }

  lemma {:induction false} RunTells(cfg: Config, spec: JobSpec, worlds: seq<World>, acts: seq<Action>, i: nat)
    requires Deployed(cfg, spec) && Run(cfg, spec, worlds, acts) && i <= |acts|
    ensures Inv(spec, worlds[i]) && Tells(worlds[i])
  {
    if i == 0 {
      InitialInv(spec);
      InitialTells();
    } else {
      RunTells(cfg, spec, worlds, acts, i - 1);
      StretchStep(cfg, spec, worlds, acts, i - 1);
      StepKeeps(cfg, spec, worlds[i - 1], acts[i - 1]);
      StepTells(cfg, spec, worlds[i - 1], acts[i - 1]);
    }
  }

  lemma ReachableTells(cfg: Config, spec: JobSpec, w: World)
    requires Deployed(cfg, spec) && Reachable(cfg, spec, w)
    ensures Inv(spec, w) && Tells(w)
  {
    var worlds, acts :| Stretch(cfg, spec, worlds, acts) && worlds[0] == INITIAL && worlds[|acts|] == w;
    RunTells(cfg, spec, worlds, acts, |acts|);
  }

  // ----- failed jobs

  ghost predicate DeleteWasCalled(log: seq<Event>) {
    exists e :: e in log && e.DeleteCalled?
  }

  ghost predicate DeleteTookEffect(log: seq<Event>) {
    exists e :: e in log && PoolEnded(e)
  }

  /**
   A failed job whose deletion nobody asked for: all delete calls were made in Provisioning,
   and there was one exactly if a poll of the create operation returned an error.
   */
  lemma FailedPool(cfg: Config, spec: JobSpec, w: World)
    requires Deployed(cfg, spec) && Reachable(cfg, spec, w) && w.status.phase.Failed? && !w.deleting
    ensures forall e | e in w.log && e.DeleteCalled? :: e.phase.Provisioning?
    ensures DeleteWasCalled(w.log) <==> GaveUp(PollFailure) in w.log
  {
    ReachableTells(cfg, spec, w);
    TrailSays(w.log);
  }

  /**
   If, besides, no Failed write was lost, exactly one reason was noted, and it separates the
   pools that are kept from those that are deleted: a delete call was made exactly for an
   error of that poll, a pool that came up is still up unless such a call took effect,
   and it is up for every job whose provisioning results are recorded.
   */
  lemma FailedPoolByCause(cfg: Config, spec: JobSpec, w: World)
    requires Deployed(cfg, spec) && Reachable(cfg, spec, w) && w.status.phase.Failed? && !w.deleting
    requires Lost(FailedWrite) !in w.log
    ensures LastCause(w.log).Some? && AtMostOneCause(w.log)
    ensures var cause := LastCause(w.log).value;
            && (DeleteWasCalled(w.log) <==> cause.PollFailure?)
            && (w.created ==> (w.pool.Up? <==> !(cause.PollFailure? && DeleteTookEffect(w.log))))
            && (BeforePool(cause) ==> w.pool.Absent? && forall e | e in w.log :: !e.CreateCalled?)
            && (AfterPool(cause) ==> w.status.results.Some?)
    ensures w.status.results.Some? ==> w.pool.Up? && !DeleteWasCalled(w.log)
  {
    ReachableTells(cfg, spec, w);
    TrailSays(w.log);
  }

  predicate Unasked(acts: seq<Action>) {
    forall i | 0 <= i < |acts| :: !acts[i].UserDeletes?
  }

  /** The world of a failed job later on: the same but for its pool, and a pool that was up still is. */
  predicate LeftAlone(w: World, w': World) {
    w' == w.(pool := w'.pool, created := w'.created) && (w.pool.Up? ==> w'.pool.Up?)
  }

  /** Until its user deletes it, nothing more is done about a failed job; a pool that is up stays up. */
  lemma {:induction false} FailedIsLeftAlone(cfg: Config, spec: JobSpec, worlds: seq<World>, acts: seq<Action>, j: nat)
    requires Stretch(cfg, spec, worlds, acts) && j <= |acts| && Unasked(acts)
    requires Tended(worlds[0]) && worlds[0].status.phase.Failed?
    ensures LeftAlone(worlds[0], worlds[j])
  {
    if j > 0 {
      FailedIsLeftAlone(cfg, spec, worlds, acts, j - 1);
      assert !acts[j - 1].UserDeletes?;
      StretchStep(cfg, spec, worlds, acts, j - 1);
      FailedStep(cfg, spec, worlds[j - 1], acts[j - 1]);
      assert LeftAlone(worlds[j - 1], worlds[j]);
    }
  }

  lemma FailedStep(cfg: Config, spec: JobSpec, w: World, act: Action)
    requires Enabled(w, act) && !act.UserDeletes? && Tended(w) && w.status.phase.Failed?
    ensures LeftAlone(w, Step(cfg, spec, w, act))
  {
  }
}

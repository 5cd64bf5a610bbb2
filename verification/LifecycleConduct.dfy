/** What the operator must have done by the time a job gets where it is: reasons, launches, deletions and records. */
module LifecycleConduct {
  import opened Common
  import opened Solver
  import opened Manifest
  import opened Lifecycle
  import opened Invariant
  import opened LifecycleSafety
  import HistoryFit

  // ----- what the log amounts to

  datatype Launches = Launches(
    applied: nat,  // manifests applied
    lost: nat,     // job-name and Running writes lost
    asked: bool    // a delete call was made in Collecting
  )

  function Follow(l: Launches, e: Event): Launches {
    Launches(
      l.applied + (if e.ManifestApplied? then 1 else 0),
      l.lost + (if e == Lost(LaunchWrite) then 1 else 0),
      l.asked || AsksInCollecting(e))
  }

  function LaunchesOf(log: seq<Event>): Launches {
    if log == [] then Launches(0, 0, false) else Follow(LaunchesOf(log[..|log| - 1]), log[|log| - 1])
  }

  predicate AsksInCollecting(e: Event) {
    e.DeleteCalled? && e.phase.Collecting?
  }

  lemma {:induction false} AskedIff(log: seq<Event>)
    ensures LaunchesOf(log).asked <==> exists e :: e in log && AsksInCollecting(e)
  {
    if log != [] {
      var init, last := log[..|log| - 1], log[|log| - 1];
      AskedIff(init);
      assert forall e :: e in log <==> e in init || e == last by {
        assert log == init + [last];
      }
      if LaunchesOf(init).asked {
        var e :| e in init && AsksInCollecting(e);
        assert e in log;
      }
    }
  }

  /** A reason to give up, or a launch, that the job and the deployment account for. */
  predicate Justified(cfg: Config, spec: JobSpec, e: Event) {
    match e
    case GaveUp(cause) =>
      && (cause.InvalidSpec? <==> !ValidSpec(spec))
      && (cause.MissingTopology? ==> spec.objective.Some? && cfg.defaultNodes == 0)
      && (cause.UnknownBackend? ==> spec.backend !in cfg.registered)
      && (cause.JobVanished? ==> !spec.restartOnFailure)
      && (cause.BadManifest? || cause.JobVanished? || cause.JobError? ==> spec.backend in cfg.registered)
    case CreateCalled(_, _, _) => ValidSpec(spec)
    case ManifestApplied(_) => ValidSpec(spec) && spec.backend in cfg.registered
    case _ => true
  }

  // ----- the invariant

  predicate BeforeLaunch(p: Phase) {
    p.NoPhase? || p.Provisioning? || p.Ready?
  }

  predicate AfterLaunch(p: Phase) {
    p.Running? || p.Collecting? || p.Succeeded?
  }

  predicate PhaseSound(cfg: Config, spec: JobSpec, s: Status) {
    && (BeforeLaunch(s.phase) || AfterLaunch(s.phase) || s.phase.Failed?)
    && (!s.phase.NoPhase? && !s.phase.Failed? ==> ValidSpec(spec))
    && (s.phase.Provisioning? && spec.objective.Some? && cfg.defaultNodes != 0 ==> s.resolved.nodes != 0)
    && (Equipped(s.phase) ==> s.results.Some? && s.results.value.provisioningTime.Some?)
  }

  /** Every apply is followed by the loss of a write or by Running; without restarts Running is entered once. */
  predicate LaunchesAgree(spec: JobSpec, p: Phase, l: Launches) {
    && l.lost <= l.applied && (!spec.restartOnFailure ==> l.applied <= l.lost + 1)
    && (BeforeLaunch(p) ==> l.applied == l.lost)
    && (AfterLaunch(p) ==> l.applied > l.lost)
    && (p.Succeeded? ==> l.asked)
  }

  /** Records are written by finishing jobs, with the provisioning time of their results. */
  predicate Carries(s: Status, e: Event) {
    e.HistoryWritten? ==>
      && (s.phase.Collecting? || s.phase.Succeeded?) && s.trainStartSet && s.results.Some?
      && s.results.value.provisioningTime == Some(e.entry.provisioningSeconds)
  }

  ghost predicate LogSound(cfg: Config, spec: JobSpec, s: Status, log: seq<Event>) {
    forall e | e in log :: Justified(cfg, spec, e) && Carries(s, e)
  }

  ghost predicate ConductedBy(cfg: Config, spec: JobSpec, s: Status, log: seq<Event>) {
    && PhaseSound(cfg, spec, s)
    && LaunchesAgree(spec, s.phase, LaunchesOf(log))
    && LogSound(cfg, spec, s, log)
  }

  ghost predicate Conducted(cfg: Config, spec: JobSpec, w: World) {
    ConductedBy(cfg, spec, w.status, w.log)
  }

  lemma InitialConducted(cfg: Config, spec: JobSpec)
    ensures Conducted(cfg, spec, INITIAL)
  {
  }

  // ----- one event or one write at a time

  lemma LogGrows(log: seq<Event>, e: Event)
    ensures LaunchesOf(log + [e]) == Follow(LaunchesOf(log), e)
    ensures forall x :: x in log + [e] <==> x in log || x == e
  {
    assert (log + [e])[..|log|] == log;
  }

  /** Neither a launch, nor the loss of one, nor a record. */
  predicate Neutral(e: Event) {
    !e.ManifestApplied? && !e.HistoryWritten? && e != Lost(LaunchWrite)
  }

  lemma NoteConducted(cfg: Config, spec: JobSpec, w: World, e: Event)
    requires Conducted(cfg, spec, w) && Neutral(e) && Justified(cfg, spec, e)
    ensures Conducted(cfg, spec, Note(w, e))
  {
    LogGrows(w.log, e);
  }

  /** A patch that keeps the phase and the provisioning time in the results. */
  lemma PatchConducted(cfg: Config, spec: JobSpec, w: World, landed: bool, s: Status)
    requires Conducted(cfg, spec, w) && s.phase == w.status.phase && s.resolved == w.status.resolved
    requires Equipped(s.phase) ==> s.results == w.status.results
    requires s.phase.Collecting? || s.phase.Succeeded? ==> w.status.trainStartSet ==> s.trainStartSet
    ensures Conducted(cfg, spec, Patch(w, landed, OtherWrite, s))
  {
    if landed {
      assert forall e | e in w.log :: Carries(w.status, e) ==> Carries(s, e);
    } else {
      NoteConducted(cfg, spec, w, Lost(OtherWrite));
    }
  }

  /** What must hold for a phase to be entered from another one. */
  predicate Enters(cfg: Config, spec: JobSpec, s: Status, p: Phase) {
    match p
    case Provisioning =>
      && s.phase.NoPhase? && ValidSpec(spec)
      && (spec.objective.Some? && cfg.defaultNodes != 0 ==> s.resolved.nodes != 0)
    case Ready => s.phase.Provisioning? && s.results.Some? && s.results.value.provisioningTime.Some?
    case Collecting => s.phase.Running?
    case Failed => !s.phase.Collecting? && !s.phase.Succeeded?
    case _ => false
  }

  lemma PhaseConducted(cfg: Config, spec: JobSpec, w: World, p: Phase, landed: bool)
    requires Conducted(cfg, spec, w) && Enters(cfg, spec, w.status, p)
    ensures Conducted(cfg, spec, SetPhase(w, p, landed))
  {
    if landed {
      assert forall e | e in w.log :: Carries(w.status, e) ==> !e.HistoryWritten?;
    } else {
      NoteConducted(cfg, spec, w, Lost(PhaseWriteOf(p)));
    }
  }

  lemma GiveUpConducted(cfg: Config, spec: JobSpec, w: World, cause: Cause, landed: bool)
    requires Conducted(cfg, spec, w) && !w.status.phase.Collecting? && !w.status.phase.Succeeded?
    requires Justified(cfg, spec, GaveUp(cause))
    ensures Conducted(cfg, spec, GiveUp(w, cause, landed))
  {
    NoteConducted(cfg, spec, w, GaveUp(cause));
    PhaseConducted(cfg, spec, Note(w, GaveUp(cause)), Failed, landed);
  }

  lemma DeleteConducted(cfg: Config, spec: JobSpec, w: World, answer: DeleteAnswer)
    requires Conducted(cfg, spec, w)
    ensures Conducted(cfg, spec, CallDelete(w, answer))
    ensures w.status.phase.Collecting? ==> LaunchesOf(CallDelete(w, answer).log).asked
  {
    var e := DeleteCalled(w.status.phase, answer.DeleteAccepted? || (answer.DeleteFailed? && answer.effect));
    LogGrows(w.log, e);
    NoteConducted(cfg, spec, w, e);
  }

  // ----- every step keeps it

  lemma PendingConducted(cfg: Config, spec: JobSpec, w: World, a: Answers)
    requires Conducted(cfg, spec, w) && Loadable(a.history) && w.status.phase.NoPhase?
    ensures Conducted(cfg, spec, ReconcilePending(cfg, spec, w, a))
  {
    if !ValidSpec(spec) {
      GiveUpConducted(cfg, spec, w, InvalidSpec, a.phaseWrite);
    } else if !w.status.startSet && !a.startWrite {
      NoteConducted(cfg, spec, w, Lost(OtherWrite));
    } else {
      var w1 := w.(status := w.status.(startSet := true));
      PatchConducted(cfg, spec, w, true, w1.status);
      ResolveConducted(cfg, spec, w1, a);
    }
  }

  lemma ResolveConducted(cfg: Config, spec: JobSpec, w: World, a: Answers)
    requires Conducted(cfg, spec, w) && Loadable(a.history) && ValidSpec(spec) && w.status.phase.NoPhase?
    ensures Conducted(cfg, spec, Resolve(cfg, spec, w, a))
  {
    if spec.objective.Some? && w.status.resolved.nodes == 0 {
      SolverRange(cfg.defaultNodes, spec.backend, spec.objective.value, a.history, a.price);
      var answer := Solve(cfg.defaultNodes, spec.backend, spec.objective.value, a.history, a.price);
      match answer
      case Err => GiveUpConducted(cfg, spec, w, SolverError, a.phaseWrite);
      case Ok(rt) =>
        if !a.resolvedWrite {
          NoteConducted(cfg, spec, w, Lost(OtherWrite));
        } else {
          ResolvedConducted(cfg, spec, w, rt, a.phaseWrite);
        }
    } else {
      PhaseConducted(cfg, spec, w, Provisioning, a.phaseWrite);
    }
  }

  lemma ResolvedConducted(cfg: Config, spec: JobSpec, w: World, rt: Topology, landed: bool)
    requires Conducted(cfg, spec, w) && ValidSpec(spec) && w.status.phase.NoPhase?
    requires cfg.defaultNodes != 0 ==> rt.nodes != 0
    ensures Conducted(cfg, spec, SetPhase(w.(status := w.status.(resolved := rt)), Provisioning, landed))
  {
    var w1 := w.(status := w.status.(resolved := rt));
    assert Conducted(cfg, spec, w1) by {
      assert forall e | e in w.log :: Carries(w.status, e) ==> Carries(w1.status, e);
    }
    PhaseConducted(cfg, spec, w1, Provisioning, landed);
  }

  lemma ProvisioningConducted(cfg: Config, spec: JobSpec, w: World, a: Answers)
    requires Conducted(cfg, spec, w) && w.status.phase.Provisioning?
    ensures Conducted(cfg, spec, ReconcileProvisioning(spec, w, a))
  {
    var desired := Desired(spec, w.status.resolved);
    if spec.objective.Some? && w.status.resolved.nodes == 0 {
      GiveUpConducted(cfg, spec, w, MissingTopology, a.phaseWrite);
    } else if !w.status.provStartSet && !a.provStartWrite {
      NoteConducted(cfg, spec, w, Lost(OtherWrite));
    } else {
      var w1 := w.(status := w.status.(provStartSet := true));
      PatchConducted(cfg, spec, w, true, w1.status);
      StartedConducted(cfg, spec, w1, desired, a);
    }
  }

  lemma StartedConducted(cfg: Config, spec: JobSpec, w: World, desired: int, a: Answers)
    requires Conducted(cfg, spec, w) && w.status.phase.Provisioning?
    ensures Conducted(cfg, spec, PollPool(w, desired, a)) && Conducted(cfg, spec, RequestPool(w, desired, a))
  {
    PollConducted(cfg, spec, w, desired, a);
    RequestConducted(cfg, spec, w, desired, a);
  }

  lemma RequestConducted(cfg: Config, spec: JobSpec, w: World, desired: int, a: Answers)
    requires Conducted(cfg, spec, w) && w.status.phase.Provisioning?
    ensures Conducted(cfg, spec, RequestPool(w, desired, a))
  {
    var accepted := a.create.CreateAccepted?;
    var e := CreateCalled(desired, accepted || a.create.effect, accepted);
    NoteConducted(cfg, spec, w, e);
    var w1 := CallCreate(w, desired, a.create);
    assert Conducted(cfg, spec, w1);
    if accepted {
      PatchConducted(cfg, spec, w1, true, w1.status.(op := Some(CreateOp)));
      NoteConducted(cfg, spec, w1, Lost(OperationIdWrite));
    } else {
      GiveUpConducted(cfg, spec, w1, CreateRefusal, a.phaseWrite);
    }
  }

  lemma PollConducted(cfg: Config, spec: JobSpec, w: World, desired: int, a: Answers)
    requires Conducted(cfg, spec, w) && w.status.phase.Provisioning?
    ensures Conducted(cfg, spec, PollPool(w, desired, a))
  {
    match a.poll
    case PollPending =>
    case PollError =>
      var w1 := Note(w, GaveUp(PollFailure));
      NoteConducted(cfg, spec, w, GaveUp(PollFailure));
      DeleteConducted(cfg, spec, w1, a.delete);
      PhaseConducted(cfg, spec, CallDelete(w1, a.delete), Failed, a.phaseWrite);
    case PollDone =>
      if a.readyNodes.Some? {
        if a.readyNodes.value < desired {
          PatchConducted(cfg, spec, w, a.sizeWrite, w.status.(poolSize := a.readyNodes.value));
        } else {
          PoolReadyConducted(cfg, spec, w, a.readyNodes.value, a);
        }
      }
  }

  lemma PoolReadyConducted(cfg: Config, spec: JobSpec, w: World, ready: int, a: Answers)
    requires Conducted(cfg, spec, w) && w.status.phase.Provisioning?
    ensures Conducted(cfg, spec, PoolReady(w, ready, a))
  {
    var billed := if w.status.results.Some? then w.status.results.value.billedNodes else 0;
    var s := w.status.(op := None, poolSize := ready, results := Some(Results(Some(a.provSeconds), billed)));
    PatchConducted(cfg, spec, w, a.recordWrite, s);
    if a.recordWrite {
      PhaseConducted(cfg, spec, w.(status := s), Ready, a.phaseWrite);
    }
  }

  lemma ReadyConducted(cfg: Config, spec: JobSpec, w: World, a: Answers)
    requires Conducted(cfg, spec, w)
    requires w.status.phase.Ready? || (w.status.phase.Running? && spec.restartOnFailure)
    ensures Conducted(cfg, spec, ReconcileReady(cfg, spec, w, a))
  {
    if spec.backend !in cfg.registered {
      GiveUpConducted(cfg, spec, w, UnknownBackend, a.phaseWrite);
    } else if ManifestFails(spec, a) || a.apply.ApplyInvalid? {
      GiveUpConducted(cfg, spec, w, BadManifest, a.phaseWrite);
    } else if a.apply.Applied? {
      LaunchConducted(cfg, spec, w, if spec.backend.PyTorch? then Some(Split(spec, w.status.resolved)) else None, a);
    }
  }

  /** The status after a launch whose writes land or not. */
  function Launched(s: Status, a: Answers): Status {
    if !a.jobNameWrite then s
    else if !a.phaseWrite then s.(jobNamed := true)
    else s.(jobNamed := true, phase := Running)
  }

  lemma LaunchForm(w: World, replicas: Option<Replicas>, a: Answers)
    ensures Launch(w, replicas, a).status == Launched(w.status, a)
    ensures Launch(w, replicas, a).log
         == w.log + [ManifestApplied(replicas)] + if a.jobNameWrite && a.phaseWrite then [] else [Lost(LaunchWrite)]
  {
  }

  lemma SoundGrows(cfg: Config, spec: JobSpec, s: Status, log: seq<Event>, e: Event)
    requires LogSound(cfg, spec, s, log) && Justified(cfg, spec, e) && Carries(s, e)
    ensures LogSound(cfg, spec, s, log + [e])
  {
    LogGrows(log, e);
  }

  lemma LaunchConducted(cfg: Config, spec: JobSpec, w: World, replicas: Option<Replicas>, a: Answers)
    requires Conducted(cfg, spec, w) && spec.backend in cfg.registered
    requires w.status.phase.Ready? || (w.status.phase.Running? && spec.restartOnFailure)
    ensures Conducted(cfg, spec, Launch(w, replicas, a))
  {
    var e, s := ManifestApplied(replicas), Launched(w.status, a);
    LaunchForm(w, replicas, a);
    assert forall x | x in w.log :: Carries(w.status, x) ==> Carries(s, x);
    if a.jobNameWrite && a.phaseWrite {
      assert w.log + [e] + [] == w.log + [e];
      LandedConducted(cfg, spec, w, e, s);
    } else {
      LostConducted(cfg, spec, w, e, s);
    }
  }

  lemma LandedConducted(cfg: Config, spec: JobSpec, w: World, e: Event, s: Status)
    requires Conducted(cfg, spec, w) && LogSound(cfg, spec, s, w.log) && PhaseSound(cfg, spec, s)
    requires w.status.phase.Ready? || (w.status.phase.Running? && spec.restartOnFailure)
    requires e.ManifestApplied? && Justified(cfg, spec, e) && s.phase.Running?
    ensures ConductedBy(cfg, spec, s, w.log + [e])
  {
    LogGrows(w.log, e);
    SoundGrows(cfg, spec, s, w.log, e);
  }

  lemma LostConducted(cfg: Config, spec: JobSpec, w: World, e: Event, s: Status)
    requires Conducted(cfg, spec, w) && LogSound(cfg, spec, s, w.log) && PhaseSound(cfg, spec, s)
    requires e.ManifestApplied? && Justified(cfg, spec, e) && s.phase == w.status.phase
    ensures ConductedBy(cfg, spec, s, w.log + [e] + [Lost(LaunchWrite)])
  {
    LogGrows(w.log, e);
    LogGrows(w.log + [e], Lost(LaunchWrite));
    SoundGrows(cfg, spec, s, w.log, e);
    SoundGrows(cfg, spec, s, w.log + [e], Lost(LaunchWrite));
  }

  lemma RunningConducted(cfg: Config, spec: JobSpec, w: World, a: Answers)
    requires Conducted(cfg, spec, w) && w.status.phase.Running?
    ensures Conducted(cfg, spec, ReconcileRunning(cfg, spec, w, a))
  {
    if spec.backend !in cfg.registered {
      GiveUpConducted(cfg, spec, w, UnknownBackend, a.phaseWrite);
    } else {
      match a.job
      case JobUnreadable =>
      case JobMissing =>
        if !spec.restartOnFailure {
          GiveUpConducted(cfg, spec, w, JobVanished, a.phaseWrite);
        } else {
          RestartConducted(cfg, spec, w, a);
        }
      case _ =>
        StartConducted(cfg, spec, w, a);
        FollowConducted(cfg, spec, NoteStart(w, a), a);
    }
  }

  lemma RestartConducted(cfg: Config, spec: JobSpec, w: World, a: Answers)
    requires Conducted(cfg, spec, w) && w.status.phase.Running? && spec.restartOnFailure
    ensures Conducted(cfg, spec, Restart(cfg, spec, w, a))
  {
    var w1 := w.(status := w.status.(trainStartSet := false));
    PatchConducted(cfg, spec, w, a.resetWrite, w1.status);
    if a.resetWrite {
      ReadyConducted(cfg, spec, w1, a);
    }
  }

  lemma StartConducted(cfg: Config, spec: JobSpec, w: World, a: Answers)
    requires Conducted(cfg, spec, w) && w.status.phase.Running?
    ensures Conducted(cfg, spec, NoteStart(w, a)) && NoteStart(w, a).status.phase.Running?
  {
    PatchConducted(cfg, spec, w, a.trainStartWrite, w.status.(trainStartSet := true));
  }

  lemma FollowConducted(cfg: Config, spec: JobSpec, w: World, a: Answers)
    requires Conducted(cfg, spec, w) && w.status.phase.Running? && spec.backend in cfg.registered
    ensures Conducted(cfg, spec, FollowJob(w, a))
  {
    PhaseConducted(cfg, spec, w, Collecting, a.phaseWrite);
    GiveUpConducted(cfg, spec, w, JobError, a.phaseWrite);
  }

  lemma CollectingConducted(cfg: Config, spec: JobSpec, w: World, a: Answers)
    requires Conducted(cfg, spec, w) && w.status.phase.Collecting?
    ensures Conducted(cfg, spec, ReconcileCollecting(cfg, spec, w, a))
  {
    TearDownConducted(cfg, spec, w, a);
    var w1 := TearDown(w, a);
    if !a.crashBeforeHistory {
      var record := RecordOf(cfg, spec, w1.status, a);
      if record.Some? && a.historyWrite {
        RecordConducted(cfg, spec, w1, a);
        FinishConducted(cfg, spec, Note(w1, HistoryWritten(record.value)), a);
      } else {
        FinishConducted(cfg, spec, w1, a);
      }
    }
  }

  lemma TearDownConducted(cfg: Config, spec: JobSpec, w: World, a: Answers)
    requires Conducted(cfg, spec, w) && w.status.phase.Collecting?
    ensures var w1 := TearDown(w, a);
            Conducted(cfg, spec, w1) && w1.status.phase.Collecting? && LaunchesOf(w1.log).asked
  {
    var w1 := CallDelete(w, a.delete);
    DeleteConducted(cfg, spec, w, a.delete);
    PatchConducted(cfg, spec, w1, a.deleteOpWrite, w1.status.(op := Some(DeleteOp)));
    LogGrows(w1.log, Lost(OtherWrite));
  }

  lemma RecordConducted(cfg: Config, spec: JobSpec, w: World, a: Answers)
    requires Conducted(cfg, spec, w) && w.status.phase.Collecting?
    requires RecordOf(cfg, spec, w.status, a).Some?
    ensures var w1 := Note(w, HistoryWritten(RecordOf(cfg, spec, w.status, a).value));
            Conducted(cfg, spec, w1) && LaunchesOf(w1.log) == LaunchesOf(w.log)
  {
    LogGrows(w.log, HistoryWritten(RecordOf(cfg, spec, w.status, a).value));
  }

  lemma FinishConducted(cfg: Config, spec: JobSpec, w: World, a: Answers)
    requires Conducted(cfg, spec, w) && w.status.phase.Collecting? && LaunchesOf(w.log).asked
    ensures Conducted(cfg, spec, Finish(w, a))
  {
    if !a.resultsWrite {
      NoteConducted(cfg, spec, w, Lost(ResultsWrite));
    } else {
      var s := w.status.(results := Some(Results(w.status.results.value.provisioningTime, w.status.poolSize)),
                         poolSize := 0);
      if !a.phaseWrite {
        StoredConducted(cfg, spec, w, s);
        NoteConducted(cfg, spec, w.(status := s), Lost(SucceededWrite));
        assert Finish(w, a) == Note(w.(status := s), Lost(SucceededWrite));
      } else {
        StoredConducted(cfg, spec, w, s.(phase := Succeeded));
        assert Finish(w, a) == w.(status := s.(phase := Succeeded));
      }
    }
  }

  lemma StoredConducted(cfg: Config, spec: JobSpec, w: World, s: Status)
    requires Conducted(cfg, spec, w) && w.status.phase.Collecting? && LaunchesOf(w.log).asked
    requires (s.phase.Collecting? || s.phase.Succeeded?) && s.trainStartSet == w.status.trainStartSet
    requires s.results.Some? && s.results.value.provisioningTime == w.status.results.value.provisioningTime
    ensures Conducted(cfg, spec, w.(status := s))
  {
    assert forall e | e in w.log :: Carries(w.status, e) ==> Carries(s, e);
  }

  lemma DeletionConducted(cfg: Config, spec: JobSpec, w: World, a: Answers)
    requires Conducted(cfg, spec, w)
    ensures Conducted(cfg, spec, ReconcileDelete(w, a))
  {
    DeleteConducted(cfg, spec, w, a.delete);
    NoteConducted(cfg, spec, w, Lost(OtherWrite));
    NoteConducted(cfg, spec, CallDelete(w, a.delete), Lost(OtherWrite));
  }

  lemma ReconcileConducted(cfg: Config, spec: JobSpec, w: World, a: Answers)
    requires Conducted(cfg, spec, w) && Loadable(a.history)
    ensures Conducted(cfg, spec, Reconcile(cfg, spec, w, a))
  {
    if w.exists_ {
      if w.deleting {
        DeletionConducted(cfg, spec, w, a);
      } else if !w.finalizer {
        NoteConducted(cfg, spec, w, Lost(OtherWrite));
      } else {
        match w.status.phase
        case NoPhase => PendingConducted(cfg, spec, w, a);
        case Provisioning => ProvisioningConducted(cfg, spec, w, a);
        case Ready => ReadyConducted(cfg, spec, w, a);
        case Running => RunningConducted(cfg, spec, w, a);
        case Collecting => CollectingConducted(cfg, spec, w, a);
        case Succeeded => PatchConducted(cfg, spec, w, a.opWrite, w.status.(op := None));
        case _ =>
      }
    }
  }

  lemma {:induction false} RunConducted(cfg: Config, spec: JobSpec, worlds: seq<World>, acts: seq<Action>, i: nat)
    requires Run(cfg, spec, worlds, acts) && i <= |acts|
    ensures Conducted(cfg, spec, worlds[i])
  {
    if i == 0 {
      InitialConducted(cfg, spec);
    } else {
      RunConducted(cfg, spec, worlds, acts, i - 1);
      StretchStep(cfg, spec, worlds, acts, i - 1);
      if acts[i - 1].Reconciled? {
        ReconcileConducted(cfg, spec, worlds[i - 1], acts[i - 1].answers);
      }
    }
  }

  lemma ReachableConducted(cfg: Config, spec: JobSpec, w: World)
    requires Reachable(cfg, spec, w)
    ensures Conducted(cfg, spec, w)
  {
    var worlds, acts :| Stretch(cfg, spec, worlds, acts) && worlds[0] == INITIAL && worlds[|acts|] == w;
    RunConducted(cfg, spec, worlds, acts, |acts|);
  }

  // ----- deletions

  /** No job succeeds without its pool having been asked to be deleted while the results were collected. */
  lemma SucceededAskedForDeletion(cfg: Config, spec: JobSpec, w: World)
    requires Reachable(cfg, spec, w) && w.status.phase.Succeeded?
    ensures exists e :: e in w.log && AsksInCollecting(e)
  {
    ReachableConducted(cfg, spec, w);
    AskedIff(w.log);
  }

  /** So a pool is left behind only by calls of that kind, all of which failed. */
  lemma OrphanWasRefused(cfg: Config, spec: JobSpec, w: World)
    requires Deployed(cfg, spec) && Reachable(cfg, spec, w) && Orphaned(w)
    ensures exists e :: e in w.log && AsksInCollecting(e)
    ensures forall e | e in w.log && AsksInCollecting(e) :: !e.effect
  {
    OrphanedIff(cfg, spec, w);
    SucceededAskedForDeletion(cfg, spec, w);
    forall e | e in w.log && AsksInCollecting(e)
      ensures !e.effect
    {
      assert e == DeleteCalled(Collecting, e.effect);
    }
  }

  // ----- reasons

  /** Whatever a job was given up for, or launched with, the job and the deployment account for it. */
  lemma ReasonsJustified(cfg: Config, spec: JobSpec, w: World, e: Event)
    requires Reachable(cfg, spec, w) && e in w.log
    ensures e == GaveUp(InvalidSpec) ==> !ValidSpec(spec)
    ensures e == GaveUp(UnknownBackend) ==> spec.backend !in cfg.registered
    ensures e.GaveUp? && (e.cause.BadManifest? || e.cause.JobVanished? || e.cause.JobError?) ==>
              spec.backend in cfg.registered
    ensures e == GaveUp(JobVanished) ==> !spec.restartOnFailure
    ensures e.ManifestApplied? ==> ValidSpec(spec) && spec.backend in cfg.registered
  {
    ReachableConducted(cfg, spec, w);
  }

  /** What can be wrong with a specification. */
  predicate Defective(spec: JobSpec) {
    || spec.backend.OtherBackend?
    || (spec.backend.PyTorch? && (spec.pytorch.None? || spec.pytorch.value.image == ""))
    || (spec.backend.Spark? && !spec.hasSparkSpec)
    || (spec.backend.Spark? && spec.objective.None? && spec.nodes < 1)
    || (spec.backend.Spark? && spec.objective.Some? && spec.nodes > 0)
    || (spec.objective.Some? && spec.objective.value.targetTime.Unset? && spec.objective.value.maxCost.Unset?)
    || (spec.objective.Some? && spec.objective.value.maxNodes < 2)
  }

  /** No pool is requested, and nothing launched or recorded, for a defective job; it is given up as invalid only. */
  lemma NothingForDefective(cfg: Config, spec: JobSpec, w: World, e: Event)
    requires Reachable(cfg, spec, w) && e in w.log && Defective(spec)
    ensures !e.CreateCalled? && !e.ManifestApplied? && !e.HistoryWritten?
    ensures e.GaveUp? ==> e.cause.InvalidSpec?
    ensures w.status.phase.NoPhase? || w.status.phase.Failed?
  {
    ReachableConducted(cfg, spec, w);
  }

  /**
   Unless the calibration default is zero the missing-topology failure cannot happen; and when it
   is positive, every job that is provisioned for asks for at least one node.
   */
  lemma TopologyNeverMissing(cfg: Config, spec: JobSpec, w: World)
    requires cfg.defaultNodes != 0 && Reachable(cfg, spec, w)
    ensures GaveUp(MissingTopology) !in w.log
    ensures Deployed(cfg, spec) && (w.status.phase.Provisioning? || Equipped(w.status.phase)) ==>
              Desired(spec, w.status.resolved) >= 1
  {
    ReachableConducted(cfg, spec, w);
    if Deployed(cfg, spec) {
      ReachableInv(cfg, spec, w);
    }
  }

  // ----- launches

  function Applied(log: seq<Event>): nat {
    if log == [] then 0 else Applied(log[..|log| - 1]) + if log[|log| - 1].ManifestApplied? then 1 else 0
  }

  function LaunchLosses(log: seq<Event>): nat {
    if log == [] then 0 else LaunchLosses(log[..|log| - 1]) + if log[|log| - 1] == Lost(LaunchWrite) then 1 else 0
  }

  lemma {:induction false} LaunchesCount(log: seq<Event>)
    ensures LaunchesOf(log).applied == Applied(log) && LaunchesOf(log).lost == LaunchLosses(log)
  {
    if log != [] {
      LaunchesCount(log[..|log| - 1]);
    }
  }

  /**
   Until a job runs its manifest has been applied once for each lost job-name or Running write,
   and after that more often; without restarts, exactly once more.
   */
  lemma ManifestsApplied(cfg: Config, spec: JobSpec, w: World)
    requires Reachable(cfg, spec, w)
    ensures LaunchLosses(w.log) <= Applied(w.log)
    ensures BeforeLaunch(w.status.phase) ==> Applied(w.log) == LaunchLosses(w.log)
    ensures AfterLaunch(w.status.phase) ==> Applied(w.log) >= LaunchLosses(w.log) + 1
    ensures !spec.restartOnFailure ==> Applied(w.log) <= LaunchLosses(w.log) + 1
  {
    ReachableConducted(cfg, spec, w);
    LaunchesCount(w.log);
  }

  // ----- records

  /** Every record a job leaves carries the provisioning time of its results, and its start was noted. */
  lemma RecordsCarryProvisioning(cfg: Config, spec: JobSpec, w: World, entry: HistoryFit.Entry)
    requires Reachable(cfg, spec, w) && HistoryWritten(entry) in w.log
    ensures w.status.results.Some? && w.status.results.value.provisioningTime == Some(entry.provisioningSeconds)
    ensures (w.status.phase.Collecting? || w.status.phase.Succeeded?) && w.status.trainStartSet
  {
    ReachableConducted(cfg, spec, w);
    assert Carries(w.status, HistoryWritten(entry));
  }
}

/**
 The reconciler as the program runs it: it fetches the object, changes the copy it holds in memory
 field by field, and sends each change as a merge patch against the copy it had before.

 Every handler is proved to have the effect that the lifecycle states for it.
 */
module Controller {
  import opened Common
  import opened Solver
  import opened Manifest
  import opened Lifecycle
  import opened Invariant

  /** A merge patch carries the fields in which mine differs from base, and leaves the others alone. */
  function Merge(base: Status, mine: Status, stored: Status): Status {
    Status(
      if mine.phase == base.phase then stored.phase else mine.phase,
      if mine.startSet == base.startSet then stored.startSet else mine.startSet,
      if mine.provStartSet == base.provStartSet then stored.provStartSet else mine.provStartSet,
      if mine.trainStartSet == base.trainStartSet then stored.trainStartSet else mine.trainStartSet,
      if mine.jobNamed == base.jobNamed then stored.jobNamed else mine.jobNamed,
      if mine.poolSize == base.poolSize then stored.poolSize else mine.poolSize,
      if mine.op == base.op then stored.op else mine.op,
      if mine.results == base.results then stored.results else mine.results,
      if mine.resolved == base.resolved then stored.resolved else mine.resolved)
  }

  lemma MergeInStep(base: Status, mine: Status)
    ensures Merge(base, mine, base) == mine
  {
  }

  /** An operation ID that differs from the stored one is not part of a later patch. */
  lemma MergeBesideOp(base: Status, mine: Status, stored: Status)
    requires base == stored.(op := base.op) && mine.op == base.op
    ensures Merge(base, mine, stored) == mine.(op := stored.op)
  {
  }

  class Reconciler {
    const cfg: Config
    const spec: JobSpec

    // job.Status as held in memory
    var phase: Phase
    var startSet: bool
    var provStartSet: bool
    var trainStartSet: bool
    var jobNamed: bool
    var poolSize: int
    var op: Option<Operation>
    var results: Option<Results>
    var resolved: Topology

    // the cluster and the cloud
    var stored: Status
    var exists_: bool
    var finalizer: bool
    var deleting: bool
    var pool: Pool
    var created: bool
    ghost var log: seq<Event>

    function Memory(): Status
      reads this
    {
      Status(phase, startSet, provStartSet, trainStartSet, jobNamed, poolSize, op, results, resolved)
    }

    ghost function State(): World
      reads this
    {
      World(exists_, finalizer, deleting, stored, pool, created, log)
    }

    constructor (cfg: Config, spec: JobSpec)
      ensures this.cfg == cfg && this.spec == spec && State() == INITIAL
    {
      this.cfg, this.spec := cfg, spec;
      phase, startSet, provStartSet, trainStartSet, jobNamed := NoPhase, false, false, false, false;
      poolSize, op, results, resolved := 0, None, None, NO_TOPOLOGY;
      stored := INITIAL.status;
      exists_, finalizer, deleting, pool, created, log := true, false, false, Absent, false, [];
    }

    // ----- calls

    /** Read the object. */
    method Get()
      modifies `phase, `startSet, `provStartSet, `trainStartSet, `jobNamed, `poolSize, `op, `results, `resolved
      ensures Memory() == stored
    {
      phase, startSet, provStartSet := stored.phase, stored.startSet, stored.provStartSet;
      trainStartSet, jobNamed, poolSize := stored.trainStartSet, stored.jobNamed, stored.poolSize;
      op, results, resolved := stored.op, stored.results, stored.resolved;
    }

    /** Send the changes since base; the answer of the server replaces the copy in memory. */
    method StatusPatch(base: Status, landed: bool, ghost write: Write) returns (ok: bool)
      modifies `phase, `startSet, `provStartSet, `trainStartSet, `jobNamed, `poolSize, `op, `results, `resolved
      modifies `stored, `log
      ensures ok == landed
      ensures landed ==> stored == Merge(base, old(Memory()), old(stored)) && Memory() == stored && log == old(log)
      ensures !landed ==> stored == old(stored) && Memory() == old(Memory()) && log == old(log) + [Lost(write)]
    {
      if landed {
        stored := Merge(base, Memory(), stored);
        Get();
      } else {
        log := log + [Lost(write)];
      }
      ok := landed;
    }

    /** The patch of a copy that was in step with the store until it was changed. */
    method Save(base: Status, landed: bool, ghost write: Write) returns (ok: bool)
      requires base == stored
      modifies `phase, `startSet, `provStartSet, `trainStartSet, `jobNamed, `poolSize, `op, `results, `resolved
      modifies `stored, `log
      ensures ok == landed && Memory() == old(Memory())
      ensures State() == Patch(old(State()), landed, write, old(Memory()))
    {
      ghost var mine := Memory();
      MergeInStep(base, mine);
      ok := StatusPatch(base, landed, write);
      assert Memory() == mine;
    }

    /** The same for a copy whose operation ID has drifted: the drift is not sent. */
    method SaveBesideOp(base: Status, landed: bool, ghost write: Write) returns (ok: bool)
      requires base == stored.(op := base.op) && op == base.op
      modifies `phase, `startSet, `provStartSet, `trainStartSet, `jobNamed, `poolSize, `op, `results, `resolved
      modifies `stored, `log
      ensures ok == landed
      ensures landed ==> stored == old(Memory()).(op := old(stored).op) && Memory() == stored && log == old(log)
      ensures !landed ==> stored == old(stored) && log == old(log) + [Lost(write)]
    {
      MergeBesideOp(base, Memory(), stored);
      ok := StatusPatch(base, landed, write);
    }

    /** Patch the phase; whatever else has changed in memory without landing stays behind. */
    method SetPhase(p: Phase, landed: bool)
      requires phase == stored.phase
      modifies `phase, `startSet, `provStartSet, `trainStartSet, `jobNamed, `poolSize, `op, `results, `resolved
      modifies `stored, `log
      ensures State() == Lifecycle.SetPhase(old(State()), p, landed)
    {
      var base := Memory();
      phase := p;
      var _ := StatusPatch(base, landed, PhaseWriteOf(p));
    }

    /** Fail the job for a reason. */
    method GiveUp(ghost cause: Cause, landed: bool)
      requires phase == stored.phase
      modifies `phase, `startSet, `provStartSet, `trainStartSet, `jobNamed, `poolSize, `op, `results, `resolved
      modifies `stored, `log
      ensures State() == Lifecycle.GiveUp(old(State()), cause, landed)
    {
      log := log + [GaveUp(cause)];
      SetPhase(Failed, landed);
    }

    method CreateNodePool(nodes: int, answer: CreateAnswer) returns (ok: bool)
      modifies `pool, `created, `log
      ensures ok == answer.CreateAccepted?
      ensures State() == CallCreate(old(State()), nodes, answer)
    {
      ok := answer.CreateAccepted?;
      log := log + [CreateCalled(nodes, ok || answer.effect, ok)];
      if ok || answer.effect {
        pool, created := Creating, false;
      }
    }

    method DeleteNodePool(answer: DeleteAnswer)
      modifies `pool, `log
      ensures State() == CallDelete(old(State()), answer)
    {
      var effect := answer.DeleteAccepted? || (answer.DeleteFailed? && answer.effect);
      log := log + [DeleteCalled(stored.phase, effect)];
      if effect {
        pool := Deleting;
      }
    }

    // ----- the phase handlers

    method ReconcilePending(a: Answers)
      requires Memory() == stored && Loadable(a.history)
      requires spec.objective.Some? ==> spec.objective.value.maxNodes < 0x4000_0000
      modifies this
      ensures State() == Lifecycle.ReconcilePending(cfg, spec, old(State()), a)
    {
      if !ValidSpec(spec) {
        GiveUp(InvalidSpec, a.phaseWrite);
        return;
      }
      if !startSet {
        var base := Memory();
        startSet := true;
        var ok := Save(base, a.startWrite, OtherWrite);
        if !ok {
          return;
        }
      }
      Resolve(a);
    }

    method Resolve(a: Answers)
      requires Memory() == stored && Loadable(a.history) && ValidSpec(spec)
      requires spec.objective.Some? ==> spec.objective.value.maxNodes < 0x4000_0000
      modifies this
      ensures State() == Lifecycle.Resolve(cfg, spec, old(State()), a)
    {
      if spec.objective.Some? && resolved.nodes == 0 {
        var rt := RunSolver(cfg.defaultNodes, spec.backend, spec.objective.value, a.history, a.price);
        if rt.Err? {
          GiveUp(SolverError, a.phaseWrite);
          return;
        }
        var base := Memory();
        resolved := rt.value;
        var ok := Save(base, a.resolvedWrite, OtherWrite);
        if !ok {
          return;
        }
      }
      SetPhase(Provisioning, a.phaseWrite);
    }

    method ReconcileProvisioning(a: Answers)
      requires Memory() == stored
      modifies this
      ensures State() == Lifecycle.ReconcileProvisioning(spec, old(State()), a)
    {
      var nodeCount := if spec.nodes == 0 then 1 else spec.nodes;
      if spec.objective.Some? {
        if resolved.nodes == 0 {
          GiveUp(MissingTopology, a.phaseWrite);
          return;
        }
        nodeCount := resolved.nodes;
      }
      if !provStartSet {
        var base := Memory();
        provStartSet := true;
        var ok := Save(base, a.provStartWrite, OtherWrite);
        if !ok {
          return;
        }
      }
      if op.Some? {
        PollPool(nodeCount, a);
      } else if !a.crashBeforeCreate {
        RequestPool(nodeCount, a);
      }
    }

    method RequestPool(nodeCount: int, a: Answers)
      requires Memory() == stored
      modifies this
      ensures State() == Lifecycle.RequestPool(old(State()), nodeCount, a)
    {
      var accepted := CreateNodePool(nodeCount, a.create);
      if !accepted {
        GiveUp(CreateRefusal, a.phaseWrite);
        return;
      }
      var base := Memory();
      op := Some(CreateOp);
      var _ := Save(base, a.opWrite, OperationIdWrite);
    }

    method PollPool(nodeCount: int, a: Answers)
      requires Memory() == stored
      modifies this
      ensures State() == Lifecycle.PollPool(old(State()), nodeCount, a)
    {
      match a.poll {
        case PollError =>
          log := log + [GaveUp(PollFailure)];
          DeleteNodePool(a.delete);
          SetPhase(Failed, a.phaseWrite);
        case PollPending =>
        case PollDone =>
          if a.readyNodes.None? {
            return;
          }
          if a.readyNodes.value >= nodeCount {
            PoolReady(a.readyNodes.value, a);
            return;
          }
          var base := Memory();
          poolSize := a.readyNodes.value;
          var _ := Save(base, a.sizeWrite, OtherWrite);
      }
    }

    method PoolReady(ready: int, a: Answers)
      requires Memory() == stored
      modifies this
      ensures State() == Lifecycle.PoolReady(old(State()), ready, a)
    {
      var base := Memory();
      op := None;
      poolSize := ready;
      var billed := if results.Some? then results.value.billedNodes else 0;
      results := Some(Results(Some(a.provSeconds), billed));
      ghost var mine := Memory();
      assert mine == base.(op := None, poolSize := ready, results := Some(Results(Some(a.provSeconds), billed)));
      var ok := Save(base, a.recordWrite, OtherWrite);
      if ok {
        SetPhase(Ready, a.phaseWrite);
      }
    }

    method ReconcileReady(a: Answers)
      requires Memory() == stored
      modifies this
      ensures State() == Lifecycle.ReconcileReady(cfg, spec, old(State()), a)
    {
      if spec.backend !in cfg.registered {
        GiveUp(UnknownBackend, a.phaseWrite);
        return;
      }
      if ManifestFails(spec, a) {
        GiveUp(BadManifest, a.phaseWrite);
        return;
      }
      var replicas: Option<Replicas> := None;
      if spec.backend.PyTorch? {
        var r := SplitReplicas(spec, resolved);
        replicas := Some(r);
      }
      match a.apply {
        case ApplyInvalid => GiveUp(BadManifest, a.phaseWrite);
        case ApplyFailed =>
        case Applied => Launch(replicas, a);
      }
    }

    method Launch(replicas: Option<Replicas>, a: Answers)
      requires Memory() == stored
      modifies this
      ensures State() == Lifecycle.Launch(old(State()), replicas, a)
    {
      log := log + [ManifestApplied(replicas)];
      var base := Memory();
      jobNamed := true;
      var ok := Save(base, a.jobNameWrite, LaunchWrite);
      if ok {
        SetPhase(Running, a.phaseWrite);
      }
    }

    method ReconcileRunning(a: Answers)
      requires Memory() == stored
      modifies this
      ensures State() == Lifecycle.ReconcileRunning(cfg, spec, old(State()), a)
    {
      if spec.backend !in cfg.registered {
        GiveUp(UnknownBackend, a.phaseWrite);
        return;
      }
      match a.job {
        case JobUnreadable =>
        case JobMissing =>
          if !spec.restartOnFailure {
            GiveUp(JobVanished, a.phaseWrite);
            return;
          }
          var base := Memory();
          trainStartSet := false;
          var ok := Save(base, a.resetWrite, OtherWrite);
          if ok {
            ReconcileReady(a);
          }
        case JobSucceeded =>
          NoteStart(a);
          SetPhase(Collecting, a.phaseWrite);
        case JobFailed =>
          NoteStart(a);
          GiveUp(JobError, a.phaseWrite);
        case JobRunning =>
          NoteStart(a);
      }
    }

    /** The start of the training, in memory even when its write is lost. */
    method NoteStart(a: Answers)
      requires Memory() == stored
      modifies this
      ensures State() == Lifecycle.NoteStart(old(State()), a) && phase == stored.phase
    {
      if !trainStartSet && a.startTimeKnown {
        var base := Memory();
        trainStartSet := true;
        var _ := Save(base, a.trainStartWrite, OtherWrite);
      }
    }

    method ReconcileCollecting(a: Answers)
      requires Memory() == stored
      modifies this
      ensures State() == Lifecycle.ReconcileCollecting(cfg, spec, old(State()), a)
    {
      TearDown(a);
      if a.crashBeforeHistory {
        return;
      }
      var record := RecordOf(cfg, spec, Memory(), a);
      if record.Some? && a.historyWrite {
        log := log + [HistoryWritten(record.value)];
      }
      Finish(a);
    }

    /** The deletion is started; its operation is in memory even when the write is lost. */
    method TearDown(a: Answers)
      requires Memory() == stored
      modifies this
      ensures State() == Lifecycle.TearDown(old(State()), a) && Memory() == stored.(op := op)
    {
      DeleteNodePool(a.delete);
      if a.delete.DeleteAccepted? {
        StoreDeletion(a.deleteOpWrite);
      }
    }

    method StoreDeletion(landed: bool)
      requires Memory() == stored
      modifies this
      ensures State() == Patch(old(State()), landed, OtherWrite, old(stored).(op := Some(DeleteOp)))
      ensures Memory() == old(stored).(op := Some(DeleteOp))
    {
      var base := Memory();
      op := Some(DeleteOp);
      var _ := Save(base, landed, OtherWrite);
    }

    /** Results and pool size in one write, the phase in the next; the stored operation may lag behind memory. */
    method Finish(a: Answers)
      requires Memory() == stored.(op := op)
      modifies this
      ensures State() == Lifecycle.Finish(old(State()), a)
    {
      var provisioning := if results.Some? then results.value.provisioningTime else None;
      var base := Memory();
      results := Some(Results(provisioning, poolSize));
      poolSize := 0;
      var ok := SaveBesideOp(base, a.resultsWrite, ResultsWrite);
      if ok {
        assert State() == old(State()).(status := old(stored).(results := results, poolSize := 0));
        SetPhase(Succeeded, a.phaseWrite);
      }
    }

    method ReconcileSucceeded(a: Answers)
      requires Memory() == stored
      modifies this
      ensures State() == Lifecycle.ReconcileSucceeded(old(State()), a)
    {
      if op.None? || !a.poll.PollDone? {
        return;
      }
      var base := Memory();
      op := None;
      var _ := Save(base, a.opWrite, OtherWrite);
    }

    method ReconcileDelete(a: Answers)
      requires Memory() == stored
      modifies this
      ensures State() == Lifecycle.ReconcileDelete(old(State()), a)
    {
      if !phase.Succeeded? {
        DeleteNodePool(a.delete);
        if a.delete.DeleteBusy? || a.delete.DeleteFailed? {
          return;
        }
      }
      if a.finalizerWrite {
        finalizer, exists_ := false, false;
      } else {
        log := log + [Lost(OtherWrite)];
      }
    }

    // ----- the entry point

    /** One reconcile: it takes the step of the lifecycle, and so keeps its invariant. */
    method Reconcile(a: Answers)
      requires Consistent(State(), a)
      requires spec.objective.Some? ==> spec.objective.value.maxNodes < 0x4000_0000
      modifies this
      ensures State() == Lifecycle.Reconcile(cfg, spec, old(State()), a)
      ensures Deployed(cfg, spec) && old(Inv(spec, State())) ==> Inv(spec, State())
    {
      if Deployed(cfg, spec) && Inv(spec, State()) {
        ReconcileKeeps(cfg, spec, State(), a);
      }
      Dispatch(a);
    }

    method Dispatch(a: Answers)
      requires Loadable(a.history)
      requires spec.objective.Some? ==> spec.objective.value.maxNodes < 0x4000_0000
      modifies this
      ensures State() == Lifecycle.Reconcile(cfg, spec, old(State()), a)
    {
      if !exists_ {
        return;
      }
      Get();
      if deleting {
        ReconcileDelete(a);
      } else if finalizer {
        Handle(a);
      } else if a.finalizerWrite {
        finalizer := true;
      } else {
        log := log + [Lost(OtherWrite)];
      }
    }

    method Handle(a: Answers)
      requires Memory() == stored && Loadable(a.history) && exists_ && finalizer && !deleting
      requires spec.objective.Some? ==> spec.objective.value.maxNodes < 0x4000_0000
      modifies this
      ensures State() == Lifecycle.Reconcile(cfg, spec, old(State()), a)
    {
      match phase {
        case NoPhase => ReconcilePending(a);
        case Pending => ReconcilePending(a);
        case Provisioning => ReconcileProvisioning(a);
        case Ready => ReconcileReady(a);
        case Running => ReconcileRunning(a);
        case Collecting => ReconcileCollecting(a);
        case Succeeded => ReconcileSucceeded(a);
        case Failed =>
        case Unrecognised => SetPhase(Pending, a.phaseWrite);
      }
    }
  }
}

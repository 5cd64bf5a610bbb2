/** Steps that take a job one phase further, from any world in which it still can. */
module LifecyclePaths {
  import opened Common
  import opened Solver
  import opened Manifest
  import opened Lifecycle
  import opened Invariant
  import HistoryWriter

  predicate Startable(cfg: Config, spec: JobSpec) {
    Deployed(cfg, spec) && ValidSpec(spec) && spec.backend in cfg.registered
  }

  /** Jobs whose runs enter the history; one that leaves its node count to the default does not. */
  predicate Recordable(spec: JobSpec) {
    !spec.backend.PlainJob? && (spec.objective.Some? || spec.nodes >= 1)
  }

  /** Every write lands, and the cloud turns every call down; the history is empty and the job runs for a minute. */
  const CALM := Answers(
    finalizerWrite := true, startWrite := true, history := Some([]), price := None, resolvedWrite := true,
    phaseWrite := true, provStartWrite := true, crashBeforeCreate := false, create := CreateRefused(false),
    opWrite := true, poll := PollPending, delete := DeleteBusy, readyNodes := None, sizeWrite := true,
    recordWrite := true, provSeconds := 60.0, manifestFails := false, apply := Applied, jobNameWrite := true,
    job := JobRunning, resetWrite := true, startTimeKnown := true, trainStartWrite := true, deleteOpWrite := true,
    crashBeforeHistory := false, trainSeconds := 60.0,
    metrics := Some(HistoryWriter.Metrics(Parsed(600.0), Unset)), historyWrite := true, resultsWrite := true)

  /** The object is there, guarded, and nobody asked for its deletion. */
  predicate Tended(w: World) {
    w.exists_ && w.finalizer && !w.deleting
  }

  /** From start some stretch leads to w, which satisfies the invariant. */
  ghost predicate On(cfg: Config, spec: JobSpec, start: World, w: World) {
    Leads(cfg, spec, start, w) && Inv(spec, w)
  }

  lemma OnStart(cfg: Config, spec: JobSpec)
    ensures On(cfg, spec, INITIAL, INITIAL)
  {
    LeadsNowhere(cfg, spec, INITIAL);
    InitialInv(spec);
  }

  lemma OnStep(cfg: Config, spec: JobSpec, start: World, w: World, act: Action)
    requires Deployed(cfg, spec) && On(cfg, spec, start, w) && Enabled(w, act)
    ensures On(cfg, spec, start, Step(cfg, spec, w, act))
  {
    LeadsOn(cfg, spec, start, w, act);
    StepKeeps(cfg, spec, w, act);
  }

  lemma GoGuarded(cfg: Config, spec: JobSpec, start: World, w: World) returns (w': World)
    requires Deployed(cfg, spec) && On(cfg, spec, start, w) && w.exists_ && !w.deleting
    ensures On(cfg, spec, start, w') && Tended(w') && w' == w.(finalizer := true)
  {
    w' := w.(finalizer := true);
    if !w.finalizer {
      OnStep(cfg, spec, start, w, Reconciled(CALM));
    }
  }

  /** The job waits for a pool. */
  lemma GoWaiting(cfg: Config, spec: JobSpec, start: World, w: World) returns (w': World)
    requires Startable(cfg, spec) && On(cfg, spec, start, w) && Tended(w) && w.status.phase.NoPhase?
    ensures On(cfg, spec, start, w') && Tended(w') && w'.log == w.log && w'.pool.Absent?
    ensures w'.status.phase.Provisioning? && w'.status.op.None? && w'.status.results == w.status.results
  {
    OnStep(cfg, spec, start, w, Reconciled(CALM));
    w' := Reconcile(cfg, spec, w, CALM);
  }

  /** The pool is up, and the operation that created it is stored. */
  lemma GoCreated(cfg: Config, spec: JobSpec, start: World, w: World) returns (w': World)
    requires Startable(cfg, spec) && On(cfg, spec, start, w) && Tended(w)
    requires w.status.phase.Provisioning? && w.status.op.None? && w.pool.Absent?
    ensures On(cfg, spec, start, w') && Tended(w') && w'.pool.Up? && w'.created
    ensures w'.log == w.log + [CreateCalled(Desired(spec, w.status.resolved), true, true)]
    ensures w'.status.phase.Provisioning? && w'.status.op == Some(CreateOp) && w'.status.results == w.status.results
  {
    var a := CALM.(create := CreateAccepted);
    OnStep(cfg, spec, start, w, Reconciled(a));
    w' := ComeUp(cfg, spec, start, Reconcile(cfg, spec, w, a));
  }

  lemma ComeUp(cfg: Config, spec: JobSpec, start: World, w: World) returns (w': World)
    requires Startable(cfg, spec) && On(cfg, spec, start, w) && w.pool.Creating?
    ensures On(cfg, spec, start, w') && w' == w.(pool := Up, created := true)
  {
    OnStep(cfg, spec, start, w, PoolComesUp);
    w' := w.(pool := Up, created := true);
  }

  lemma GoReady(cfg: Config, spec: JobSpec, start: World, w: World) returns (w': World)
    requires Startable(cfg, spec) && On(cfg, spec, start, w) && Tended(w)
    requires w.status.phase.Provisioning? && w.status.op == Some(CreateOp) && w.created
    ensures On(cfg, spec, start, w') && Tended(w') && w'.pool == w.pool && w'.log == w.log && w'.status.phase.Ready?
  {
    var a := CALM.(poll := PollDone, readyNodes := Some(Desired(spec, w.status.resolved)));
    OnStep(cfg, spec, start, w, Reconciled(a));
    w' := Reconcile(cfg, spec, w, a);
  }

  lemma GoRunning(cfg: Config, spec: JobSpec, start: World, w: World) returns (w': World)
    requires Startable(cfg, spec) && On(cfg, spec, start, w) && Tended(w) && w.status.phase.Ready?
    ensures On(cfg, spec, start, w') && Tended(w') && w'.pool == w.pool && w'.status.phase.Running?
    ensures |w'.log| == |w.log| + 1 && w'.log[..|w.log|] == w.log && w'.log[|w.log|].ManifestApplied?
  {
    OnStep(cfg, spec, start, w, Reconciled(CALM));
    w' := Reconcile(cfg, spec, w, CALM);
  }

  lemma GoCollecting(cfg: Config, spec: JobSpec, start: World, w: World) returns (w': World)
    requires Startable(cfg, spec) && On(cfg, spec, start, w) && Tended(w) && w.status.phase.Running?
    ensures On(cfg, spec, start, w') && Tended(w') && w'.pool == w.pool && w'.log == w.log
    ensures w'.status.phase.Collecting? && w'.status.trainStartSet
  {
    var a := CALM.(job := JobSucceeded);
    OnStep(cfg, spec, start, w, Reconciled(a));
    w' := Reconcile(cfg, spec, w, a);
    var w1 := NoteStart(w, a);
    assert w1.status.trainStartSet && w1.status.phase.Running? && w1.log == w.log;
    assert w' == w1.(status := w1.status.(phase := Collecting));
  }

  /** The job succeeds; the cloud refuses the delete call. */
  lemma GoSucceeded(cfg: Config, spec: JobSpec, start: World, w: World) returns (w': World)
    requires Startable(cfg, spec) && On(cfg, spec, start, w) && Tended(w) && w.status.phase.Collecting?
    ensures On(cfg, spec, start, w') && Tended(w') && w'.pool == w.pool && w'.status.phase.Succeeded?
  {
    OnStep(cfg, spec, start, w, Reconciled(CALM));
    w' := Reconcile(cfg, spec, w, CALM);
  }
}

/**
 The life of one DistributedTraining object: the reconcile steps of the operator against
 a cluster that may lose any write and a cloud that may refuse or fail any call.

 A reconcile is one step whose outcome is fixed by the answers it gets. A write that is
 lost stands for a failed patch and for a crash just before it. Users and the cloud act
 between reconciles.
 */
module Lifecycle {
  import opened Common
  import opened Solver
  import opened Manifest
  import HistoryFit
  import HistoryWriter

  datatype Phase = NoPhase | Pending | Provisioning | Ready | Running | Collecting | Succeeded | Failed | Unrecognised

  /** The kind of cloud operation a stored operation ID belongs to. */
  datatype Operation = CreateOp | DeleteOp

  /** Collected results, with the node count that enters the recorded cost. */
  datatype Results = Results(provisioningTime: Option<real>, billedNodes: int)

  datatype Status = Status(
    phase: Phase,
    startSet: bool,
    provStartSet: bool,
    trainStartSet: bool,
    jobNamed: bool,
    poolSize: int,
    op: Option<Operation>,
    results: Option<Results>,
    resolved: Topology
  )

  datatype Pool = Absent | Creating | Up | Deleting

  /** The writes whose loss matters to some property. */
  datatype Write =
    | OperationIdWrite | ReadyWrite
    | LaunchWrite                    // the job name or the Running phase, after a manifest was applied
    | FailedWrite | ResultsWrite | SucceededWrite
    | OtherWrite

  /** Why the operator gives a job up. */
  datatype Cause =
    | InvalidSpec | SolverError | MissingTopology  // before a pool is asked for
    | CreateRefusal                                // the create call was refused
    | PollFailure                                  // a poll of the create operation returned an error
    | UnknownBackend | BadManifest | JobVanished | JobError

  /** What the operator does to the outside world, its reasons to give up, and the writes it loses. */
  datatype Event =
    | CreateCalled(nodes: int, effect: bool, answered: bool)
    | DeleteCalled(phase: Phase, effect: bool)
    | ManifestApplied(replicas: Option<Replicas>)
    | HistoryWritten(entry: HistoryFit.Entry)
    | GaveUp(cause: Cause)
    | Lost(write: Write)

  datatype World = World(
    exists_: bool,       // the object is stored
    finalizer: bool,
    deleting: bool,      // the user asked for its deletion
    status: Status,
    pool: Pool,
    created: bool,       // the pool has come up since it was last created
    log: seq<Event>
  )

  datatype Config = Config(defaultNodes: int, registered: set<Backend>)

  // ----- answers of the environment

  /** Accepted, or refused; a refusal may still have started the operation. */
  datatype CreateAnswer = CreateAccepted | CreateRefused(effect: bool)

  datatype DeleteAnswer = DeleteAccepted | DeleteNotFound | DeleteBusy | DeleteFailed(effect: bool)

  datatype PollAnswer = PollDone | PollPending | PollError

  datatype ApplyAnswer = Applied | ApplyInvalid | ApplyFailed

  datatype JobAnswer = JobMissing | JobUnreadable | JobSucceeded | JobFailed | JobRunning

  datatype Answers = Answers(
    finalizerWrite: bool,
    startWrite: bool,
    history: Option<seq<HistoryFit.Entry>>,
    price: Option<real>,
    resolvedWrite: bool,
    phaseWrite: bool,
    provStartWrite: bool,
    crashBeforeCreate: bool,
    create: CreateAnswer,
    opWrite: bool,
    poll: PollAnswer,
    delete: DeleteAnswer,
    readyNodes: Option<nat>,
    sizeWrite: bool,
    recordWrite: bool,
    provSeconds: real,
    manifestFails: bool,
    apply: ApplyAnswer,
    jobNameWrite: bool,
    job: JobAnswer,
    resetWrite: bool,
    startTimeKnown: bool,
    trainStartWrite: bool,
    deleteOpWrite: bool,
    crashBeforeHistory: bool,
    trainSeconds: real,
    metrics: Option<HistoryWriter.Metrics>,
    historyWrite: bool,
    resultsWrite: bool
  )

  /** The answers agree with the state of the pool and the history can be fitted. */
  ghost predicate Consistent(w: World, a: Answers) {
    && (a.create.CreateAccepted? || a.create.effect ==> w.pool.Absent?)
    && (a.delete.DeleteAccepted? || (a.delete.DeleteFailed? && a.delete.effect) ==> !w.pool.Absent?)
    && (a.delete.DeleteNotFound? ==> w.pool.Absent?)
    && (a.poll.PollDone? && w.status.op == Some(CreateOp) ==> w.created)
    && (a.poll.PollDone? && w.status.op == Some(DeleteOp) ==> w.pool.Absent?)
    && Loadable(a.history)
  }

  // ----- single effects

  function Note(w: World, e: Event): World {
    w.(log := w.log + [e])
  }

  /** A status patch: it lands as a whole or is lost. */
  function Patch(w: World, landed: bool, write: Write, s: Status): World {
    if landed then w.(status := s) else Note(w, Lost(write))
  }

  function PhaseWriteOf(p: Phase): Write {
    match p
    case Ready => ReadyWrite
    case Running => LaunchWrite
    case Failed => FailedWrite
    case Succeeded => SucceededWrite
    case _ => OtherWrite
  }

  function SetPhase(w: World, p: Phase, landed: bool): World {
    Patch(w, landed, PhaseWriteOf(p), w.status.(phase := p))
  }

  /** The job is beyond help: note why, then patch the phase. */
  function GiveUp(w: World, cause: Cause, landed: bool): World {
    SetPhase(Note(w, GaveUp(cause)), Failed, landed)
  }

  function CallCreate(w: World, nodes: int, answer: CreateAnswer): World {
    var effect := answer.CreateAccepted? || answer.effect;
    var w' := Note(w, CreateCalled(nodes, effect, answer.CreateAccepted?));
    if effect then w'.(pool := Creating, created := false) else w'
  }

  function CallDelete(w: World, answer: DeleteAnswer): World {
    var effect := answer.DeleteAccepted? || (answer.DeleteFailed? && answer.effect);
    var w' := Note(w, DeleteCalled(w.status.phase, effect));
    if effect then w'.(pool := Deleting) else w'
  }

  // ----- the phase handlers

  ghost function ReconcilePending(cfg: Config, spec: JobSpec, w: World, a: Answers): World
    requires Loadable(a.history)
  {
    if !ValidSpec(spec) then GiveUp(w, InvalidSpec, a.phaseWrite)
    else if !w.status.startSet && !a.startWrite then Note(w, Lost(OtherWrite))
    else Resolve(cfg, spec, w.(status := w.status.(startSet := true)), a)
  }

  /** In objective mode the solver settles the node count, once; then the job moves on. */
  ghost function Resolve(cfg: Config, spec: JobSpec, w: World, a: Answers): World
    requires Loadable(a.history) && ValidSpec(spec)
  {
    if spec.objective.Some? && w.status.resolved.nodes == 0 then
      match Solve(cfg.defaultNodes, spec.backend, spec.objective.value, a.history, a.price)
      case Err => GiveUp(w, SolverError, a.phaseWrite)
      case Ok(rt) =>
        if !a.resolvedWrite then Note(w, Lost(OtherWrite))
        else SetPhase(w.(status := w.status.(resolved := rt)), Provisioning, a.phaseWrite)
    else SetPhase(w, Provisioning, a.phaseWrite)
  }

  function ReconcileProvisioning(spec: JobSpec, w: World, a: Answers): World {
    var desired := Desired(spec, w.status.resolved);
    if spec.objective.Some? && w.status.resolved.nodes == 0 then
      GiveUp(w, MissingTopology, a.phaseWrite)
    else if !w.status.provStartSet && !a.provStartWrite then Note(w, Lost(OtherWrite))
    else
      var w1 := w.(status := w.status.(provStartSet := true));
      if w1.status.op.Some? then PollPool(w1, desired, a)
      else if a.crashBeforeCreate then w1
      else RequestPool(w1, desired, a)
  }

  function RequestPool(w: World, desired: int, a: Answers): World {
    var w1 := CallCreate(w, desired, a.create);
    if a.create.CreateAccepted?
    then Patch(w1, a.opWrite, OperationIdWrite, w1.status.(op := Some(CreateOp)))
    else GiveUp(w1, CreateRefusal, a.phaseWrite)
  }

  function PollPool(w: World, desired: int, a: Answers): World {
    match a.poll
    case PollError => SetPhase(CallDelete(Note(w, GaveUp(PollFailure)), a.delete), Failed, a.phaseWrite)
    case PollPending => w
    case PollDone => CountNodes(w, desired, a)
  }

  /** The create operation is done: wait until all nodes are ready. */
  function CountNodes(w: World, desired: int, a: Answers): World {
    if a.readyNodes.None? then w
    else if a.readyNodes.value < desired then
      Patch(w, a.sizeWrite, OtherWrite, w.status.(poolSize := a.readyNodes.value))
    else PoolReady(w, a.readyNodes.value, a)
  }

  /** Clear the operation and record the pool in one write, then move on in a second one. */
  function PoolReady(w: World, ready: int, a: Answers): World {
    var billed := if w.status.results.Some? then w.status.results.value.billedNodes else 0;
    var s := w.status.(op := None, poolSize := ready, results := Some(Results(Some(a.provSeconds), billed)));
    if !a.recordWrite then Note(w, Lost(OtherWrite)) else SetPhase(w.(status := s), Ready, a.phaseWrite)
  }

  predicate ManifestFails(spec: JobSpec, a: Answers) {
    match spec.backend
    case PyTorch => spec.pytorch.None?
    case Spark => !spec.hasSparkSpec
    case _ => a.manifestFails
  }

  function ReconcileReady(cfg: Config, spec: JobSpec, w: World, a: Answers): World {
    if spec.backend !in cfg.registered then GiveUp(w, UnknownBackend, a.phaseWrite)
    else if ManifestFails(spec, a) then GiveUp(w, BadManifest, a.phaseWrite)
    else
      match a.apply
      case ApplyInvalid => GiveUp(w, BadManifest, a.phaseWrite)
      case ApplyFailed => w
      case Applied =>
        Launch(w, if spec.backend.PyTorch? then Some(Split(spec, w.status.resolved)) else None, a)
  }

  /** The manifest is applied: store the name of the job, then move on. */
  function Launch(w: World, replicas: Option<Replicas>, a: Answers): World {
    var w1 := Note(w, ManifestApplied(replicas));
    if !a.jobNameWrite then Note(w1, Lost(LaunchWrite))
    else SetPhase(w1.(status := w1.status.(jobNamed := true)), Running, a.phaseWrite)
  }

  function ReconcileRunning(cfg: Config, spec: JobSpec, w: World, a: Answers): World {
    if spec.backend !in cfg.registered then GiveUp(w, UnknownBackend, a.phaseWrite)
    else
      match a.job
      case JobUnreadable => w
      case JobMissing =>
        if !spec.restartOnFailure then GiveUp(w, JobVanished, a.phaseWrite)
        else Restart(cfg, spec, w, a)
      case _ => FollowJob(NoteStart(w, a), a)
  }

  /** The job vanished: forget when it started and launch it again in the same reconcile. */
  function Restart(cfg: Config, spec: JobSpec, w: World, a: Answers): World {
    if !a.resetWrite then Note(w, Lost(OtherWrite))
    else ReconcileReady(cfg, spec, w.(status := w.status.(trainStartSet := false)), a)
  }

  function FollowJob(w: World, a: Answers): World {
    if a.job.JobSucceeded? then SetPhase(w, Collecting, a.phaseWrite)
    else if a.job.JobFailed? then GiveUp(w, JobError, a.phaseWrite)
    else w
  }

  function NoteStart(w: World, a: Answers): World {
    if !w.status.trainStartSet && a.startTimeKnown
    then Patch(w, a.trainStartWrite, OtherWrite, w.status.(trainStartSet := true))
    else w
  }

  /** The node count recorded in the history. */
  function HistoryNodes(spec: JobSpec, resolved: Topology): int {
    if spec.objective.Some? then resolved.nodes
    else
      match spec.backend
      case PyTorch => if spec.pytorch.Some? then spec.nodes else 1
      case Spark => spec.nodes
      case _ => 0
  }

  function ReconcileCollecting(cfg: Config, spec: JobSpec, w: World, a: Answers): World {
    var w1 := TearDown(w, a);
    if a.crashBeforeHistory then w1
    else
      var record := RecordOf(cfg, spec, w1.status, a);
      Finish(if record.Some? && a.historyWrite then Note(w1, HistoryWritten(record.value)) else w1, a)
  }

  function TearDown(w: World, a: Answers): World {
    var w1 := CallDelete(w, a.delete);
    if a.delete.DeleteAccepted?
    then Patch(w1, a.deleteOpWrite, OtherWrite, w1.status.(op := Some(DeleteOp)))
    else w1
  }

  function RecordOf(cfg: Config, spec: JobSpec, s: Status, a: Answers): Option<HistoryFit.Entry> {
    HistoryWriter.HistoryEntry(
      spec.backend,
      if s.trainStartSet then Parsed(a.trainSeconds) else Unset,
      if s.results.Some? && s.results.value.provisioningTime.Some?
      then Parsed(s.results.value.provisioningTime.value) else Unset,
      if spec.backend in cfg.registered then a.metrics else None,
      HistoryNodes(spec, s.resolved))
  }

  /** The results, then the final phase, in two writes. */
  function Finish(w: World, a: Answers): World {
    var provisioning := if w.status.results.Some? then w.status.results.value.provisioningTime else None;
    var results := Some(Results(provisioning, w.status.poolSize));
    if !a.resultsWrite then Note(w, Lost(ResultsWrite))
    else SetPhase(w.(status := w.status.(results := results, poolSize := 0)), Succeeded, a.phaseWrite)
  }

  function ReconcileSucceeded(w: World, a: Answers): World {
    if w.status.op.None? || !a.poll.PollDone? then w
    else Patch(w, a.opWrite, OtherWrite, w.status.(op := None))
  }

  /** The object asked to be deleted: the pool first, unless the job succeeded, then the finalizer. */
  function ReconcileDelete(w: World, a: Answers): World {
    var skip := w.status.phase.Succeeded?;
    var w1 := if skip then w else CallDelete(w, a.delete);
    if !skip && (a.delete.DeleteBusy? || a.delete.DeleteFailed?) then w1
    else if a.finalizerWrite then w1.(finalizer := false, exists_ := false)
    else Note(w1, Lost(OtherWrite))
  }

  ghost function Reconcile(cfg: Config, spec: JobSpec, w: World, a: Answers): World
    requires Loadable(a.history)
  {
    if !w.exists_ then w
    else if w.deleting then ReconcileDelete(w, a)
    else if !w.finalizer then
      if a.finalizerWrite then w.(finalizer := true) else Note(w, Lost(OtherWrite))
    else
      match w.status.phase
      case NoPhase => ReconcilePending(cfg, spec, w, a)
      case Pending => ReconcilePending(cfg, spec, w, a)
      case Provisioning => ReconcileProvisioning(spec, w, a)
      case Ready => ReconcileReady(cfg, spec, w, a)
      case Running => ReconcileRunning(cfg, spec, w, a)
      case Collecting => ReconcileCollecting(cfg, spec, w, a)
      case Succeeded => ReconcileSucceeded(w, a)
      case Failed => w
      case Unrecognised => SetPhase(w, Pending, a.phaseWrite)
  }

  // ----- runs

  datatype Action =
    | Reconciled(answers: Answers)
    | PoolComesUp
    | PoolCreationFails
    | PoolGone
    | UserDeletes

  ghost predicate Enabled(w: World, act: Action) {
    match act
    case Reconciled(a) => Consistent(w, a)
    case PoolComesUp => w.pool.Creating?
    case PoolCreationFails => w.pool.Creating?
    case PoolGone => w.pool.Deleting?
    case UserDeletes => w.exists_
  }

  ghost function Step(cfg: Config, spec: JobSpec, w: World, act: Action): World
    requires Enabled(w, act)
  {
    match act
    case Reconciled(a) => Reconcile(cfg, spec, w, a)
    case PoolComesUp => w.(pool := Up, created := true)
    case PoolCreationFails => w.(pool := Absent)
    case PoolGone => w.(pool := Absent)
    case UserDeletes => if w.finalizer then w.(deleting := true) else w.(exists_ := false)
  }

  const NO_TOPOLOGY := Topology(0, 0, 0, None, None)

  const INITIAL := World(
    true, false, false,
    Status(NoPhase, false, false, false, false, 0, None, None, NO_TOPOLOGY),
    Absent, false, [])

  ghost predicate StepsTo(cfg: Config, spec: JobSpec, w: World, act: Action, w': World) {
    Enabled(w, act) && w' == Step(cfg, spec, w, act)
  }

  /** A stretch of a run: the worlds it goes through, each reached by an enabled action. */
  ghost predicate Stretch(cfg: Config, spec: JobSpec, worlds: seq<World>, acts: seq<Action>) {
    && |worlds| == |acts| + 1
    && forall i | 0 <= i < |acts| :: StepsTo(cfg, spec, worlds[i], acts[i], worlds[i + 1])
  }

  /** A run: a stretch from the initial world. */
  ghost predicate Run(cfg: Config, spec: JobSpec, worlds: seq<World>, acts: seq<Action>) {
    Stretch(cfg, spec, worlds, acts) && worlds[0] == INITIAL
  }

  /** Some stretch goes from w to w'. */
  ghost predicate Leads(cfg: Config, spec: JobSpec, w: World, w': World) {
    exists worlds, acts :: Stretch(cfg, spec, worlds, acts) && worlds[0] == w && worlds[|acts|] == w'
  }

  ghost predicate Reachable(cfg: Config, spec: JobSpec, w: World) {
    Leads(cfg, spec, INITIAL, w)
  }

  lemma StretchStep(cfg: Config, spec: JobSpec, worlds: seq<World>, acts: seq<Action>, k: nat)
    requires Stretch(cfg, spec, worlds, acts) && k < |acts|
    ensures Enabled(worlds[k], acts[k]) && worlds[k + 1] == Step(cfg, spec, worlds[k], acts[k])
  {
    assert StepsTo(cfg, spec, worlds[k], acts[k], worlds[k + 1]);
  }

  lemma LeadsNowhere(cfg: Config, spec: JobSpec, w: World)
    ensures Leads(cfg, spec, w, w)
  {
    assert Stretch(cfg, spec, [w], []);
  }

  lemma LeadsOn(cfg: Config, spec: JobSpec, w: World, w1: World, act: Action)
    requires Leads(cfg, spec, w, w1) && Enabled(w1, act)
    ensures Leads(cfg, spec, w, Step(cfg, spec, w1, act))
  {
    var worlds, acts :| Stretch(cfg, spec, worlds, acts) && worlds[0] == w && worlds[|acts|] == w1;
    var w2 := Step(cfg, spec, w1, act);
    StretchGrows(cfg, spec, worlds, acts, act, w2);
    assert (worlds + [w2])[0] == w && (worlds + [w2])[|acts| + 1] == w2;
  }

  lemma StretchGrows(cfg: Config, spec: JobSpec, worlds: seq<World>, acts: seq<Action>, act: Action, w: World)
    requires Stretch(cfg, spec, worlds, acts) && StepsTo(cfg, spec, worlds[|acts|], act, w)
    ensures Stretch(cfg, spec, worlds + [w], acts + [act])
  {
    var worlds', acts' := worlds + [w], acts + [act];
    forall i | 0 <= i < |acts'|
      ensures StepsTo(cfg, spec, worlds'[i], acts'[i], worlds'[i + 1])
    {
      if i < |acts| {
        assert StepsTo(cfg, spec, worlds[i], acts[i], worlds[i + 1]);
      }
    }
  }
}

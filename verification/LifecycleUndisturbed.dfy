/** The run in which nothing goes wrong: what it does, step by step, and where it ends. */
module LifecycleUndisturbed {
  import opened Common
  import opened Solver
  import opened Manifest
  import opened Lifecycle
  import opened Invariant
  import opened LifecyclePaths
  import HistoryFit
  import HistoryWriter

  /** Every write lands, nothing crashes, and the backend generates its manifest. */
  predicate AllLands(a: Answers) {
    && a.finalizerWrite && a.startWrite && a.resolvedWrite && a.phaseWrite && a.provStartWrite && a.opWrite
    && a.sizeWrite && a.recordWrite && a.jobNameWrite && a.resetWrite && a.trainStartWrite && a.deleteOpWrite
    && a.historyWrite && a.resultsWrite && !a.crashBeforeCreate && !a.crashBeforeHistory && !a.manifestFails
  }

  /** The job runs for some time and reports how much work it did. */
  predicate Measured(a: Answers) {
    && a.trainSeconds > 0.0 && a.startTimeKnown
    && a.metrics.Some? && a.metrics.value.total.Parsed? && a.metrics.value.total.value > 0.0
  }

  /** The history can be loaded, and in objective mode the solver settles a topology. */
  ghost predicate Settles(cfg: Config, spec: JobSpec, a: Answers) {
    && Loadable(a.history)
    && (spec.objective.Some? && spec.objective.value.maxNodes >= 2 ==>
          Solve(cfg.defaultNodes, spec.backend, spec.objective.value, a.history, a.price).Ok?)
  }

  ghost function Settled(cfg: Config, spec: JobSpec, a: Answers): Topology
    requires ValidSpec(spec) && Settles(cfg, spec, a)
  {
    if spec.objective.None? then NO_TOPOLOGY
    else Solve(cfg.defaultNodes, spec.backend, spec.objective.value, a.history, a.price).value
  }

  function ReplicasOf(spec: JobSpec, rt: Topology): Option<Replicas>
    requires ValidSpec(spec)
  {
    if spec.backend.PyTorch? then Some(Split(spec, rt)) else None
  }

  /** The answers of a step in which every call is turned down that the pool would not fit. */
  function Idle(a: Answers): Answers {
    a.(create := CreateRefused(false), poll := PollPending, delete := DeleteBusy)
  }

  function Guarded(): World {
    INITIAL.(finalizer := true)
  }

  /** Validated and resolved. */
  function Resolved(rt: Topology): World {
    Guarded().(status := INITIAL.status.(phase := Provisioning, startSet := true, resolved := rt))
  }

  /** The pool is requested, and has come up. */
  function Provisioned(rt: Topology, desired: int): World {
    Resolved(rt).(status := Resolved(rt).status.(provStartSet := true, op := Some(CreateOp)),
                pool := Up, created := true, log := [CreateCalled(desired, true, true)])
  }

  /** All nodes are ready. */
  function Readied(rt: Topology, desired: int, ready: int, seconds: real): World {
    var w := Provisioned(rt, desired);
    w.(status := w.status.(phase := Ready, op := None, poolSize := ready, results := Some(Results(Some(seconds), 0))))
  }

  /** The job is launched. */
  function Launched(rt: Topology, desired: int, ready: int, seconds: real, replicas: Option<Replicas>): World {
    var w := Readied(rt, desired, ready, seconds);
    w.(status := w.status.(phase := Running, jobNamed := true), log := w.log + [ManifestApplied(replicas)])
  }

  /** The job has been seen to start, and to be done. */
  function Completed(rt: Topology, desired: int, ready: int, seconds: real, replicas: Option<Replicas>): World {
    var w := Launched(rt, desired, ready, seconds, replicas);
    w.(status := w.status.(phase := Collecting, trainStartSet := true))
  }

  ghost predicate Steps(cfg: Config, spec: JobSpec, w: World, act: Action, w': World) {
    Enabled(w, act) && Step(cfg, spec, w, act) == w'
  }

  lemma Guards(cfg: Config, spec: JobSpec, a: Answers)
    requires AllLands(a) && Loadable(a.history)
    ensures Steps(cfg, spec, INITIAL, Reconciled(Idle(a)), Guarded())
  {
  }

  lemma Resolves(cfg: Config, spec: JobSpec, a: Answers)
    requires AllLands(a) && ValidSpec(spec) && Settles(cfg, spec, a)
    ensures Steps(cfg, spec, Guarded(), Reconciled(Idle(a)), Resolved(Settled(cfg, spec, a)))
  {
    var w := Guarded().(status := INITIAL.status.(startSet := true));
    assert ReconcilePending(cfg, spec, Guarded(), Idle(a)) == Resolve(cfg, spec, w, Idle(a));
  }

  lemma Provisions(cfg: Config, spec: JobSpec, a: Answers, rt: Topology) returns (w: World)
    requires AllLands(a) && Loadable(a.history) && (spec.objective.Some? ==> rt.nodes != 0)
    ensures Steps(cfg, spec, Resolved(rt), Reconciled(Idle(a).(create := CreateAccepted)), w)
    ensures Steps(cfg, spec, w, PoolComesUp, Provisioned(rt, Desired(spec, rt)))
  {
    var a1, desired := Idle(a).(create := CreateAccepted), Desired(spec, rt);
    var w1 := Resolved(rt).(status := Resolved(rt).status.(provStartSet := true));
    assert Reconcile(cfg, spec, Resolved(rt), a1) == RequestPool(w1, desired, a1);
    w := RequestPool(w1, desired, a1);
    assert w.log == [CreateCalled(desired, true, true)];
    assert w.status == Provisioned(rt, desired).status;
  }

  lemma CountsNodes(cfg: Config, spec: JobSpec, a: Answers, rt: Topology)
    requires AllLands(a) && Loadable(a.history) && (spec.objective.Some? ==> rt.nodes != 0)
    requires a.readyNodes.Some? && a.readyNodes.value >= Desired(spec, rt)
    ensures Steps(cfg, spec, Provisioned(rt, Desired(spec, rt)), Reconciled(Idle(a).(poll := PollDone)),
                  Readied(rt, Desired(spec, rt), a.readyNodes.value, a.provSeconds))
  {
    var desired, a1 := Desired(spec, rt), Idle(a).(poll := PollDone);
    var w := Provisioned(rt, desired);
    assert w.(status := w.status.(provStartSet := true)) == w;
    assert Reconcile(cfg, spec, w, a1) == PoolReady(w, a.readyNodes.value, a1);
  }

  lemma Launches(cfg: Config, spec: JobSpec, a: Answers, rt: Topology, ready: int)
    requires AllLands(a) && Startable(cfg, spec) && Loadable(a.history)
    ensures Steps(cfg, spec, Readied(rt, Desired(spec, rt), ready, a.provSeconds),
                  Reconciled(Idle(a).(apply := Applied)),
                  Launched(rt, Desired(spec, rt), ready, a.provSeconds, ReplicasOf(spec, rt)))
  {
    var w, a1 := Readied(rt, Desired(spec, rt), ready, a.provSeconds), Idle(a).(apply := Applied);
    assert Reconcile(cfg, spec, w, a1)
        == Launch(w, ReplicasOf(spec, rt), a1);
  }

  lemma Completes(cfg: Config, spec: JobSpec, a: Answers, rt: Topology, ready: int, replicas: Option<Replicas>)
    requires AllLands(a) && Startable(cfg, spec) && Loadable(a.history) && Measured(a)
    ensures Steps(cfg, spec, Launched(rt, Desired(spec, rt), ready, a.provSeconds, replicas),
                  Reconciled(Idle(a).(job := JobSucceeded)),
                  Completed(rt, Desired(spec, rt), ready, a.provSeconds, replicas))
  {
    var w, a1 := Launched(rt, Desired(spec, rt), ready, a.provSeconds, replicas), Idle(a).(job := JobSucceeded);
    var w1 := w.(status := w.status.(trainStartSet := true));
    assert NoteStart(w, a1) == w1;
    assert Reconcile(cfg, spec, w, a1) == SetPhase(w1, Collecting, true);
  }

  /** The record of the run: its work is the reported total, and its provisioning time that of the results. */
  function RecordFor(spec: JobSpec, desired: int, a: Answers): seq<Event>
    requires Measured(a)
  {
    var total := a.metrics.value.total.value;
    if !Recordable(spec) then []
    else [HistoryWritten(HistoryFit.Entry(desired, total / a.trainSeconds, a.trainSeconds, total, a.provSeconds))]
  }

  lemma Recorded(cfg: Config, spec: JobSpec, s: Status, a: Answers)
    requires Startable(cfg, spec) && Measured(a) && s.trainStartSet && Desired(spec, s.resolved) >= 1
    requires s.results == Some(Results(Some(a.provSeconds), 0))
    ensures var r := RecordOf(cfg, spec, s, a);
            RecordFor(spec, Desired(spec, s.resolved), a) == if r.Some? then [HistoryWritten(r.value)] else []
  {
    var tk, total := a.trainSeconds, a.metrics.value.total.value;
    var pk := total / tk;
    assert pk * tk == total;
    HistoryWriter.PositiveQuotient(total, tk);
    assert HistoryNodes(spec, s.resolved) != 0 && !spec.backend.PlainJob? <==> Recordable(spec);
    if Recordable(spec) {
      assert HistoryWriter.ExtractThroughput(spec.backend, a.metrics, tk) == Some(pk);
      var nodes := HistoryNodes(spec, s.resolved);
      HistoryWriter.EntryFacts(spec.backend, Parsed(tk), Parsed(a.provSeconds), a.metrics, nodes);
      assert RecordOf(cfg, spec, s, a).Some?;
    }
  }

  /** The pool is asked to be deleted, the run recorded, and the results stored. */
  function Finished(spec: JobSpec, a: Answers, w: World): World
    requires Measured(a) && w.status.results.Some?
  {
    var desired := Desired(spec, w.status.resolved);
    w.(status := w.status.(phase := Succeeded, op := Some(DeleteOp), poolSize := 0,
                           results := Some(Results(Some(a.provSeconds), w.status.poolSize))),
       pool := Deleting,
       log := w.log + [DeleteCalled(Collecting, true)] + RecordFor(spec, desired, a))
  }

  lemma Collects(cfg: Config, spec: JobSpec, a: Answers, w: World)
    requires AllLands(a) && Startable(cfg, spec) && Loadable(a.history) && Measured(a)
    requires Tended(w) && w.status.phase.Collecting? && w.status.trainStartSet && w.pool.Up?
    requires w.status.results == Some(Results(Some(a.provSeconds), 0)) && Desired(spec, w.status.resolved) >= 1
    ensures Steps(cfg, spec, w, Reconciled(Idle(a).(delete := DeleteAccepted)), Finished(spec, a, w))
  {
    var a1 := Idle(a).(delete := DeleteAccepted);
    var w1, records := TearDown(w, a1), RecordFor(spec, Desired(spec, w.status.resolved), a);
    assert w1 == w.(status := w.status.(op := Some(DeleteOp)), pool := Deleting,
                    log := w.log + [DeleteCalled(Collecting, true)]);
    Recorded(cfg, spec, w1.status, a1);
    var w2 := w1.(log := w1.log + records);
    assert ReconcileCollecting(cfg, spec, w, a1) == Finish(w2, a1);
  }

  lemma Confirms(cfg: Config, spec: JobSpec, a: Answers, w: World)
    requires AllLands(a) && Loadable(a.history)
    requires Tended(w) && w.status.phase.Succeeded? && w.status.op == Some(DeleteOp) && w.pool.Deleting?
    ensures Steps(cfg, spec, w, PoolGone, w.(pool := Absent))
    ensures Steps(cfg, spec, w.(pool := Absent), Reconciled(Idle(a).(poll := PollDone)),
                  w.(pool := Absent, status := w.status.(op := None)))
  {
  }

  lemma Extends(cfg: Config, spec: JobSpec, w: World, act: Action, w': World)
    requires Reachable(cfg, spec, w) && Steps(cfg, spec, w, act, w')
    ensures Reachable(cfg, spec, w')
  {
    LeadsOn(cfg, spec, INITIAL, w, act);
  }

  lemma ReachesReady(cfg: Config, spec: JobSpec, a: Answers, rt: Topology)
    requires Startable(cfg, spec) && AllLands(a) && Settles(cfg, spec, a) && rt == Settled(cfg, spec, a)
    requires a.readyNodes.Some? && a.readyNodes.value >= Desired(spec, rt)
    ensures Desired(spec, rt) >= 1
    ensures Reachable(cfg, spec, Readied(rt, Desired(spec, rt), a.readyNodes.value, a.provSeconds))
  {
    if spec.objective.Some? {
      SolverRange(cfg.defaultNodes, spec.backend, spec.objective.value, a.history, a.price);
    }
    LeadsNowhere(cfg, spec, INITIAL);
    Guards(cfg, spec, a);
    Extends(cfg, spec, INITIAL, Reconciled(Idle(a)), Guarded());
    Resolves(cfg, spec, a);
    Extends(cfg, spec, Guarded(), Reconciled(Idle(a)), Resolved(rt));
    var w := Provisions(cfg, spec, a, rt);
    Extends(cfg, spec, Resolved(rt), Reconciled(Idle(a).(create := CreateAccepted)), w);
    Extends(cfg, spec, w, PoolComesUp, Provisioned(rt, Desired(spec, rt)));
    CountsNodes(cfg, spec, a, rt);
    Extends(cfg, spec, Provisioned(rt, Desired(spec, rt)), Reconciled(Idle(a).(poll := PollDone)),
            Readied(rt, Desired(spec, rt), a.readyNodes.value, a.provSeconds));
  }

  lemma ReachesCompleted(cfg: Config, spec: JobSpec, a: Answers, rt: Topology)
    requires Startable(cfg, spec) && AllLands(a) && Settles(cfg, spec, a) && rt == Settled(cfg, spec, a)
    requires a.readyNodes.Some? && a.readyNodes.value >= Desired(spec, rt) && Measured(a)
    ensures Desired(spec, rt) >= 1
    ensures Reachable(cfg, spec,
                      Completed(rt, Desired(spec, rt), a.readyNodes.value, a.provSeconds, ReplicasOf(spec, rt)))
  {
    var desired, ready, replicas := Desired(spec, rt), a.readyNodes.value, ReplicasOf(spec, rt);
    ReachesReady(cfg, spec, a, rt);
    Launches(cfg, spec, a, rt, ready);
    Extends(cfg, spec, Readied(rt, desired, ready, a.provSeconds), Reconciled(Idle(a).(apply := Applied)),
            Launched(rt, desired, ready, a.provSeconds, replicas));
    Completes(cfg, spec, a, rt, ready, replicas);
    Extends(cfg, spec, Launched(rt, desired, ready, a.provSeconds, replicas), Reconciled(Idle(a).(job := JobSucceeded)),
            Completed(rt, desired, ready, a.provSeconds, replicas));
  }

  lemma EndsFrom(cfg: Config, spec: JobSpec, a: Answers, w: World) returns (w': World)
    requires AllLands(a) && Startable(cfg, spec) && Loadable(a.history) && Measured(a) && Reachable(cfg, spec, w)
    requires Tended(w) && w.status.phase.Collecting? && w.status.trainStartSet && w.pool.Up?
    requires w.status.results == Some(Results(Some(a.provSeconds), 0)) && Desired(spec, w.status.resolved) >= 1
    ensures Reachable(cfg, spec, w')
    ensures w' == w.(status := w'.status, log := w'.log, pool := Absent)
    ensures w'.status == w.status.(phase := Succeeded, op := None, poolSize := 0,
                                   results := Some(Results(Some(a.provSeconds), w.status.poolSize)))
    ensures w'.log == w.log + [DeleteCalled(Collecting, true)] + RecordFor(spec, Desired(spec, w.status.resolved), a)
  {
    var f := Finished(spec, a, w);
    Collects(cfg, spec, a, w);
    Extends(cfg, spec, w, Reconciled(Idle(a).(delete := DeleteAccepted)), f);
    Confirms(cfg, spec, a, f);
    Extends(cfg, spec, f, PoolGone, f.(pool := Absent));
    w' := f.(pool := Absent, status := f.status.(op := None));
    Extends(cfg, spec, f.(pool := Absent), Reconciled(Idle(a).(poll := PollDone)), w');
  }

  lemma Concatenated(x: Event, y: Event, z: Event, rest: seq<Event>)
    ensures [x] + [y] + [z] + rest == [x, y, z] + rest
  {
  }

  /**
   Every startable job has the run in which nothing goes wrong, whatever the solver answers, the nodes
   that turn up and the times it takes. It asks for one pool, applies one manifest, deletes the pool and,
   if it is of a kind that is recorded, writes one record, all with one node count; it is billed for all the
   nodes that turned up; and it ends succeeded, with the pool gone and no operation left to follow.
   */
  lemma UndisturbedRun(cfg: Config, spec: JobSpec, a: Answers) returns (w: World)
    requires Startable(cfg, spec) && AllLands(a) && Settles(cfg, spec, a) && Measured(a)
    requires a.readyNodes.Some? && a.readyNodes.value >= Desired(spec, Settled(cfg, spec, a))
    ensures Reachable(cfg, spec, w) && Tended(w) && w.pool.Absent?
    ensures var desired := Desired(spec, Settled(cfg, spec, a));
            var replicas := ReplicasOf(spec, Settled(cfg, spec, a));
            && desired >= 1
            && w.log == [CreateCalled(desired, true, true), ManifestApplied(replicas), DeleteCalled(Collecting, true)]
                        + RecordFor(spec, desired, a)
    ensures w.status == Status(Succeeded, true, true, true, true, 0, None,
                               Some(Results(Some(a.provSeconds), a.readyNodes.value)), Settled(cfg, spec, a))
  {
    var rt := Settled(cfg, spec, a);
    var done := Completed(rt, Desired(spec, rt), a.readyNodes.value, a.provSeconds, ReplicasOf(spec, rt));
    ReachesCompleted(cfg, spec, a, rt);
    w := EndsFrom(cfg, spec, a, done);
    Concatenated(CreateCalled(Desired(spec, rt), true, true), ManifestApplied(ReplicasOf(spec, rt)),
                 DeleteCalled(Collecting, true), RecordFor(spec, Desired(spec, rt), a));
  }
}

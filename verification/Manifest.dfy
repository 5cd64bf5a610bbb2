/** The job specification as far as it decides node counts, and the replica split of a PyTorchJob. */
module Manifest {
  import opened Common
  import opened Solver
  import opened HistoryFit

  datatype PytorchSpec = PytorchSpec(masterReplicas: int, image: string)

  datatype JobSpec = JobSpec(
    backend: Backend,
    pytorch: Option<PytorchSpec>,
    hasSparkSpec: bool,
    nodes: int,                    // spec.topology.nodes
    objective: Option<Objective>,
    restartOnFailure: bool
  )

  /** What the API server guarantees of the numeric fields; masterReplicas has no minimum. */
  predicate Admitted(spec: JobSpec) {
    spec.nodes >= 0
  }

  predicate ValidSpec(spec: JobSpec) {
    && (spec.objective.Some? ==>
          && !(spec.objective.value.targetTime.Unset? && spec.objective.value.maxCost.Unset?)
          && spec.objective.value.maxNodes >= 2
          && !(spec.backend.Spark? && spec.nodes > 0))
    && match spec.backend
       case PyTorch => spec.pytorch.Some? && spec.pytorch.value.image != ""
       case Spark => spec.hasSparkSpec && (spec.objective.None? ==> spec.nodes >= 1)
       case PlainJob => true
       case OtherBackend => false
  }

  /** The size of the node pool that is requested for a job. */
  function Desired(spec: JobSpec, resolved: Topology): int {
    if spec.objective.Some? then resolved.nodes
    else if spec.nodes == 0 then 1
    else spec.nodes
  }

  datatype Replicas = Replicas(masters: int, workers: int)

  method SplitReplicas(spec: JobSpec, resolved: Topology) returns (r: Replicas)
    requires spec.pytorch.Some?
    ensures r == Split(spec, resolved)
  {
    var masterReplicas := spec.pytorch.value.masterReplicas;
    if masterReplicas == 0 {
      masterReplicas := 1;
    }
    var workerReplicas := 0;
    if spec.objective.Some? {
      masterReplicas := resolved.masterReplicas;
      workerReplicas := resolved.workerReplicas;
    } else if spec.nodes > 1 {
      workerReplicas := spec.nodes - masterReplicas;
    }
    // A worker section is written for a positive count only.
    r := Replicas(masterReplicas, if workerReplicas > 0 then workerReplicas else 0);
  }

  function Masters(spec: JobSpec): int
    requires spec.pytorch.Some?
  {
    if spec.pytorch.value.masterReplicas == 0 then 1 else spec.pytorch.value.masterReplicas
  }

  /** The replicas the manifest asks for. */
  function Split(spec: JobSpec, resolved: Topology): Replicas
    requires spec.pytorch.Some?
  {
    if spec.objective.Some?
    then Replicas(resolved.masterReplicas, Max(0, resolved.workerReplicas))
    else Replicas(Masters(spec), if spec.nodes > 1 then Max(0, spec.nodes - Masters(spec)) else 0)
  }

  /** The explicit topologies whose replicas are as many as the nodes that are requested. */
  predicate FillsPool(spec: JobSpec)
    requires spec.pytorch.Some?
  {
    if spec.nodes > 1 then Masters(spec) <= spec.nodes else Masters(spec) == 1
  }

  /**
   With an explicit topology every node carries exactly one replica, except when masters
   outnumber several nodes or the only node is not given exactly one master.
   */
  lemma ExplicitReplicasFillPoolIff(spec: JobSpec, resolved: Topology)
    requires spec.pytorch.Some? && spec.objective.None? && Admitted(spec)
    ensures var r := Split(spec, resolved);
            r.masters + r.workers == Desired(spec, resolved) <==> FillsPool(spec)
  {
  }

  /** The masters are those asked for, one if none are; the workers are the nodes left over, or none at all. */
  lemma ExplicitReplicas(spec: JobSpec, resolved: Topology)
    requires spec.pytorch.Some? && spec.objective.None? && Admitted(spec)
    ensures var r, given := Split(spec, resolved), spec.pytorch.value.masterReplicas;
            && (given != 0 ==> r.masters == given) && (given == 0 ==> r.masters == 1)
            && r.workers == if FillsPool(spec) then Desired(spec, resolved) - r.masters else 0
  {
  }

  /** Admitted job specifications that miss their pool on either side of the exception. */
  lemma ExplicitReplicasMissPool(resolved: Topology)
    ensures var spec := JobSpec(PyTorch, Some(PytorchSpec(-1, "image")), false, 1, None, false);
            && Admitted(spec) && ValidSpec(spec) && !FillsPool(spec)
            && Split(spec, resolved) == Replicas(-1, 0) && Desired(spec, resolved) == 1
    ensures var spec := JobSpec(PyTorch, Some(PytorchSpec(3, "image")), false, 2, None, false);
            && Admitted(spec) && ValidSpec(spec) && !FillsPool(spec)
            && Split(spec, resolved) == Replicas(3, 0) && Desired(spec, resolved) == 2
  {
  }

  /** In objective mode every answer of the solver is spread over exactly the nodes it asks for. */
  lemma ObjectiveReplicasFillPool(defaultNodes: int, spec: JobSpec, history: Option<seq<HistoryFit.Entry>>,
                                  price: Option<real>)
    requires spec.backend.PyTorch? && spec.pytorch.Some? && spec.objective.Some?
    requires spec.objective.value.maxNodes >= 2 && Loadable(history) && defaultNodes >= 1
    ensures var rt := Solve(defaultNodes, spec.backend, spec.objective.value, history, price);
            rt.Ok? ==>
              var r := Split(spec, rt.value);
              && r.masters + r.workers == rt.value.nodes == Desired(spec, rt.value)
              && rt.value.nodes >= 1
  {
    SolverRange(defaultNodes, spec.backend, spec.objective.value, history, price);
  }

  /** It is spread over one master and as many workers as there are other nodes. */
  lemma ObjectiveReplicas(defaultNodes: int, spec: JobSpec, history: Option<seq<HistoryFit.Entry>>, price: Option<real>)
    requires spec.backend.PyTorch? && spec.pytorch.Some? && spec.objective.Some?
    requires spec.objective.value.maxNodes >= 2 && Loadable(history)
    ensures var rt := Solve(defaultNodes, spec.backend, spec.objective.value, history, price);
            rt.Ok? ==>
              var r := Split(spec, rt.value);
              r.masters == 1 && r.workers == if rt.value.nodes >= 1 then rt.value.nodes - 1 else 0
  {
    SolverRange(defaultNodes, spec.backend, spec.objective.value, history, price);
    var rt := Solve(defaultNodes, spec.backend, spec.objective.value, history, price);
    if rt.Ok? && !Calibrates(spec.objective.value, history, price) {
      ChoiceRange(defaultNodes, spec.backend, spec.objective.value, EstimatedModel(history.value), price);
    }
  }

  // ----- pool names

  /** The name of the pool of a job: the one in the spec, or a prefix of the job's name. */
  function PoolName(explicit: string, job: string): string {
    if explicit != "" then explicit
    else
      var name := "dj-" + job;
      if |name| > 40 then name[..40] else name
  }

  /** What the name of a job contributes to the name of its pool. */
  function Stem(job: string): string {
    job[..Min(|job|, 37)]
  }

  /**
   Jobs without pool names of their own share a pool exactly when their names agree on 37 characters;
   jobs with such names when these are equal, whatever the jobs are called; and one job with and one
   without when the name given is the name derived for the other.
   */
  lemma PoolNamesCollideIff(explicit1: string, job1: string, explicit2: string, job2: string)
    ensures PoolName(explicit1, job1) == PoolName(explicit2, job2)
       <==> if explicit1 == "" && explicit2 == "" then Stem(job1) == Stem(job2)
            else if explicit1 == "" then explicit2 == "dj-" + Stem(job1)
            else if explicit2 == "" then explicit1 == "dj-" + Stem(job2)
            else explicit1 == explicit2
    ensures explicit1 == "" ==> |PoolName(explicit1, job1)| <= 40
  {
    PoolNameForm(job1);
    PoolNameForm(job2);
    assert Stem(job1) == ("dj-" + Stem(job1))[3..] && Stem(job2) == ("dj-" + Stem(job2))[3..];
  }

  lemma PoolNameForm(job: string)
    ensures PoolName("", job) == "dj-" + Stem(job)
  {
    var name := "dj-" + job;
    if |name| > 40 {
      assert name[..40] == "dj-" + job[..37];
    } else {
      assert job[..|job|] == job;
    }
  }
}

/** From which worlds a job can still succeed. */
module LifecycleProgress {
  import opened Common
  import opened Manifest
  import opened Lifecycle
  import opened Invariant
  import opened LogFacts
  import opened LifecyclePaths

  /**
   A job in Provisioning can go on when a create call is due and the pool is not up, or when
   the stored operation has brought a pool up or still may.
   */
  predicate PoolInReach(w: World) {
    if w.status.op.None? then !w.pool.Up? else w.created || w.pool.Creating?
  }

  predicate CanSucceed(w: World) {
    || w.status.phase.Succeeded?
    || (&& w.exists_ && !w.deleting && !w.status.phase.Failed?
        && (w.status.phase.Provisioning? ==> PoolInReach(w)))
  }

  // ----- no way back

  lemma ProvisioningStuck(spec: JobSpec, w: World, a: Answers)
    requires Inv(spec, w) && Consistent(w, a) && w.exists_ && !w.deleting
    requires w.status.phase.Provisioning? && !PoolInReach(w)
    ensures !CanSucceed(ReconcileProvisioning(spec, w, a))
  {
    var w1 := w.(status := w.status.(provStartSet := true));
    if w.status.op.Some? {
      assert !w.status.op.value.DeleteOp?;
      assert !a.poll.PollDone?;
    }
  }

  lemma StrandedStays(cfg: Config, spec: JobSpec, w: World, act: Action)
    requires Inv(spec, w) && Enabled(w, act) && !CanSucceed(w)
    ensures !CanSucceed(Step(cfg, spec, w, act))
  {
    if act.Reconciled? && w.exists_ && !w.deleting {
      if w.finalizer && w.status.phase.Provisioning? {
        ProvisioningStuck(spec, w, act.answers);
      }
    }
  }

  /** A job that cannot succeed any more never gets to where it could, whatever happens. */
  lemma {:induction false} StrandedForGood(cfg: Config, spec: JobSpec, worlds: seq<World>, acts: seq<Action>, j: nat)
    requires Deployed(cfg, spec) && Stretch(cfg, spec, worlds, acts) && j <= |acts|
    requires Inv(spec, worlds[0]) && !CanSucceed(worlds[0])
    ensures !CanSucceed(worlds[j])
  {
    if j > 0 {
      StrandedForGood(cfg, spec, worlds, acts, j - 1);
      RunKeeps(cfg, spec, worlds, acts, j - 1);
      StrandedNext(cfg, spec, worlds, acts, j - 1);
    }
  }

  lemma StrandedNext(cfg: Config, spec: JobSpec, worlds: seq<World>, acts: seq<Action>, k: nat)
    requires Stretch(cfg, spec, worlds, acts) && k < |acts| && Inv(spec, worlds[k]) && !CanSucceed(worlds[k])
    ensures !CanSucceed(worlds[k + 1])
  {
    StretchStep(cfg, spec, worlds, acts, k);
    StrandedStays(cfg, spec, worlds[k], acts[k]);
  }

  // ----- the way on

  /** From every phase after Provisioning. */
  lemma GoOn(cfg: Config, spec: JobSpec, start: World, w: World) returns (w': World)
    requires Startable(cfg, spec) && On(cfg, spec, start, w) && Tended(w)
    requires w.status.phase.Ready? || w.status.phase.Running? || w.status.phase.Collecting?
    ensures Leads(cfg, spec, start, w') && w'.status.phase.Succeeded?
  {
    w' := w;
    if w'.status.phase.Ready? {
      w' := GoRunning(cfg, spec, start, w');
    }
    if w'.status.phase.Running? {
      w' := GoCollecting(cfg, spec, start, w');
    }
    w' := GoSucceeded(cfg, spec, start, w');
  }

  /** A pool on its way out goes, one on its way in may fail to come. */
  lemma ClearPool(cfg: Config, spec: JobSpec, start: World, w: World) returns (w': World)
    requires Deployed(cfg, spec) && On(cfg, spec, start, w) && !w.pool.Up?
    ensures On(cfg, spec, start, w') && w' == w.(pool := Absent)
  {
    w' := w.(pool := Absent);
    if w.pool.Creating? {
      OnStep(cfg, spec, start, w, PoolCreationFails);
    } else if w.pool.Deleting? {
      OnStep(cfg, spec, start, w, PoolGone);
    }
  }

  lemma GoOnFromProvisioning(cfg: Config, spec: JobSpec, start: World, w: World) returns (w': World)
    requires Startable(cfg, spec) && On(cfg, spec, start, w) && Tended(w)
    requires w.status.phase.Provisioning? && PoolInReach(w)
    ensures Leads(cfg, spec, start, w') && w'.status.phase.Succeeded?
  {
    w' := w;
    if w.status.op.None? {
      w' := ClearPool(cfg, spec, start, w');
      w' := GoCreated(cfg, spec, start, w');
    } else {
      assert !w.status.op.value.DeleteOp?;
      if !w.created {
        w' := ComeUp(cfg, spec, start, w');
      }
    }
    w' := GoReady(cfg, spec, start, w');
    w' := GoOn(cfg, spec, start, w');
  }

  lemma Succeeds(cfg: Config, spec: JobSpec, w: World) returns (w': World)
    requires Startable(cfg, spec) && Inv(spec, w) && CanSucceed(w)
    ensures Leads(cfg, spec, w, w') && w'.status.phase.Succeeded?
  {
    LeadsNowhere(cfg, spec, w);
    w' := w;
    if !w.status.phase.Succeeded? {
      w' := GoGuarded(cfg, spec, w, w);
      if w.status.phase.NoPhase? {
        w' := GoWaiting(cfg, spec, w, w');
      }
      if w'.status.phase.Provisioning? {
        w' := GoOnFromProvisioning(cfg, spec, w, w');
      } else {
        w' := GoOn(cfg, spec, w, w');
      }
    }
  }

  /** A job of a valid specification can still succeed exactly in the worlds named above. */
  lemma SuccessPossibleIff(cfg: Config, spec: JobSpec, w: World)
    requires Startable(cfg, spec) && Reachable(cfg, spec, w)
    ensures (exists w' :: Leads(cfg, spec, w, w') && w'.status.phase.Succeeded?) <==> CanSucceed(w)
  {
    ReachableInv(cfg, spec, w);
    if CanSucceed(w) {
      var w' := Succeeds(cfg, spec, w);
    } else {
      forall w' | Leads(cfg, spec, w, w') ensures !w'.status.phase.Succeeded? {
        var worlds, acts :| Stretch(cfg, spec, worlds, acts) && worlds[0] == w && worlds[|acts|] == w';
        StrandedForGood(cfg, spec, worlds, acts, |acts|);
      }
    }
  }

  // ----- what a lost Ready write costs

  /** All nodes are ready and the cleared operation is stored, but the Ready write is lost: the job is stranded. */
  lemma LostReadyWriteStrands(cfg: Config, spec: JobSpec, w: World, a: Answers)
    requires Deployed(cfg, spec) && Reachable(cfg, spec, w) && Consistent(w, a)
    requires Tended(w) && w.status.phase.Provisioning? && !EndedSince(w.log)
    requires (w.status.provStartSet || a.provStartWrite) && w.status.op.Some? && a.poll.PollDone?
    requires a.readyNodes.Some? && a.readyNodes.value >= Desired(spec, w.status.resolved)
    requires a.recordWrite && !a.phaseWrite
    ensures !CanSucceed(Reconcile(cfg, spec, w, a))
  {
    ReachableInv(cfg, spec, w);
    TallyMeans(w.log);
    StrandedByLoss(spec, w, a);
  }

  lemma StrandedByLoss(spec: JobSpec, w: World, a: Answers)
    requires Agrees(spec, w, TallyOf(w.log)) && Consistent(w, a) && w.status.phase.Provisioning?
    requires (w.status.provStartSet || a.provStartWrite) && w.status.op.Some? && a.poll.PollDone?
    requires a.readyNodes.Some? && a.readyNodes.value >= Desired(spec, w.status.resolved)
    requires a.recordWrite && !a.phaseWrite && !TallyOf(w.log).deletedSince
    ensures !CanSucceed(ReconcileProvisioning(spec, w, a))
  {
    assert !w.status.op.value.DeleteOp?;
    var w1 := w.(status := w.status.(provStartSet := true));
    assert w1.pool.Up? && !CanSucceed(PoolReady(w1, a.readyNodes.value, a));
  }
}

/** From which worlds a user can still get rid of a job together with its pool. */
module LifecycleCleanup {
  import opened Common
  import opened Manifest
  import opened Lifecycle
  import opened Invariant
  import opened LifecyclePaths

  /** The job succeeded, and its pool is still up. */
  predicate Leaked(w: World) {
    w.status.phase.Succeeded? && w.pool.Up?
  }

  predicate CleanedUp(w: World) {
    !w.exists_ && w.pool.Absent?
  }

  lemma LeakedStays(cfg: Config, spec: JobSpec, w: World, act: Action)
    requires Leaked(w) && Enabled(w, act)
    ensures Leaked(Step(cfg, spec, w, act))
  {
  }

  /** Nothing that can still happen to a succeeded job deletes a pool that is up. */
  lemma {:induction false} LeakedForGood(cfg: Config, spec: JobSpec, worlds: seq<World>, acts: seq<Action>, j: nat)
    requires Stretch(cfg, spec, worlds, acts) && j <= |acts| && Leaked(worlds[0])
    ensures Leaked(worlds[j])
  {
    if j > 0 {
      LeakedForGood(cfg, spec, worlds, acts, j - 1);
      StretchStep(cfg, spec, worlds, acts, j - 1);
      LeakedStays(cfg, spec, worlds[j - 1], acts[j - 1]);
    }
  }

  // ----- the deletion in Collecting

  /** A poll in Succeeded that finds the operation done, with the object still there and not being deleted. */
  predicate FoundDone(w: World, act: Action) {
    act.Reconciled? && act.answers.poll.PollDone? && Tended(w) && w.status.phase.Succeeded?
  }

  /**
   A delete call that is accepted, or fails and yet takes effect, takes the pool down; the operation of an
   accepted one is stored unless that write is lost.
   */
  lemma DeletionStarts(cfg: Config, spec: JobSpec, w: World, a: Answers)
    requires Consistent(w, a) && Tended(w) && w.status.phase.Collecting?
    requires a.delete.DeleteAccepted? || (a.delete.DeleteFailed? && a.delete.effect)
    ensures var w' := Reconcile(cfg, spec, w, a);
            && w'.pool.Deleting? && DeleteCalled(Collecting, true) in w'.log
            && w'.status.op == if a.delete.DeleteAccepted? && a.deleteOpWrite then Some(DeleteOp) else w.status.op
  {
    var w1 := CallDelete(w, a.delete);
    var w2 := TearDown(w, a);
    assert w1.log[|w.log|] == DeleteCalled(Collecting, true);
    assert w1.log == w2.log || w2.log == w1.log + [Lost(OtherWrite)];
    CollectingOnward(cfg, spec, w, a);
  }

  /** The same operation and pool, and nothing taken from the log. */
  predicate Onward(w: World, w': World) {
    w'.status.op == w.status.op && w'.pool == w.pool && |w'.log| >= |w.log| && w'.log[..|w.log|] == w.log
  }

  lemma FinishOnward(w: World, a: Answers)
    requires w.status.phase.Collecting?
    ensures Onward(w, Finish(w, a)) && Ending(Finish(w, a).status.phase)
  {
  }

  lemma CollectingOnward(cfg: Config, spec: JobSpec, w: World, a: Answers)
    requires w.status.phase.Collecting?
    ensures var w' := ReconcileCollecting(cfg, spec, w, a); Onward(TearDown(w, a), w') && Ending(w'.status.phase)
  {
    var w1 := TearDown(w, a);
    assert w1.status.phase.Collecting?;
    if !a.crashBeforeHistory {
      var record := RecordOf(cfg, spec, w1.status, a);
      FinishOnward(w1, a);
      if record.Some? {
        FinishOnward(Note(w1, HistoryWritten(record.value)), a);
        assert Note(w1, HistoryWritten(record.value)).log[..|w1.log|] == w1.log;
      }
    }
  }

  predicate Ending(p: Phase) {
    p.Collecting? || p.Succeeded?
  }

  /** One step clears a stored deletion exactly when a poll finds it done and that write lands. */
  lemma DeletionClearedIff(cfg: Config, spec: JobSpec, w: World, act: Action)
    requires Enabled(w, act) && w.status.op == Some(DeleteOp) && Ending(w.status.phase)
    ensures var w' := Step(cfg, spec, w, act);
            && Ending(w'.status.phase)
            && w'.status.op == (if FoundDone(w, act) && act.answers.opWrite then None else Some(DeleteOp))
            && (FoundDone(w, act) ==> w.pool.Absent? && w'.pool.Absent?)
  {
    if act.Reconciled? && Tended(w) && w.status.phase.Collecting? {
      CollectingOnward(cfg, spec, w, act.answers);
      assert TearDown(w, act.answers).status.op == Some(DeleteOp);
    }
  }

  /** The operation of the deletion is followed until a poll finds it done; by then the pool is gone. */
  lemma {:induction false} DeletionIsFollowed(cfg: Config, spec: JobSpec, worlds: seq<World>, acts: seq<Action>, j: nat)
    requires Stretch(cfg, spec, worlds, acts) && j <= |acts|
    requires worlds[0].status.op == Some(DeleteOp) && Ending(worlds[0].status.phase)
    ensures || (worlds[j].status.op == Some(DeleteOp) && Ending(worlds[j].status.phase))
            || exists k :: 0 <= k < j && FoundDone(worlds[k], acts[k]) && worlds[k].pool.Absent?
  {
    if j > 0 {
      DeletionIsFollowed(cfg, spec, worlds, acts, j - 1);
      StretchStep(cfg, spec, worlds, acts, j - 1);
      var w := worlds[j - 1];
      if w.status.op == Some(DeleteOp) && Ending(w.status.phase) {
        DeletionClearedIff(cfg, spec, w, acts[j - 1]);
        assert FoundDone(worlds[j - 1], acts[j - 1]) || worlds[j].status.op == Some(DeleteOp);
      }
    }
  }

  /** Asking for the deletion: the object is gone at once, or is kept by its finalizer. */
  lemma AskForDeletion(cfg: Config, spec: JobSpec, w: World) returns (w1: World)
    requires Inv(spec, w) && Deployed(cfg, spec) && !Leaked(w)
    ensures Leads(cfg, spec, w, w1) && Inv(spec, w1) && !Leaked(w1)
    ensures !w1.exists_ || (w1.deleting && w1.finalizer)
  {
    LeadsNowhere(cfg, spec, w);
    w1 := w;
    if w.exists_ && !w.deleting {
      LeadsOn(cfg, spec, w, w, UserDeletes);
      StepKeeps(cfg, spec, w, UserDeletes);
      w1 := Step(cfg, spec, w, UserDeletes);
    }
  }

  /** One reconcile that the cloud and the API server cooperate with removes the object. */
  lemma RemoveObject(cfg: Config, spec: JobSpec, w: World, w1: World) returns (w2: World)
    requires Leads(cfg, spec, w, w1) && Inv(spec, w1) && Deployed(cfg, spec) && !Leaked(w1)
    requires w1.exists_ && w1.deleting && w1.finalizer
    ensures Leads(cfg, spec, w, w2) && !w2.exists_ && (w2.pool.Absent? || w2.pool.Deleting?)
  {
    var a := CALM.(delete := if w1.pool.Absent? then DeleteNotFound else DeleteAccepted);
    LeadsOn(cfg, spec, w, w1, Reconciled(a));
    w2 := Step(cfg, spec, w1, Reconciled(a));
  }

  /** The object and its pool can still be got rid of exactly when the job has not succeeded with its pool up. */
  lemma CleanupPossibleIff(cfg: Config, spec: JobSpec, w: World)
    requires Deployed(cfg, spec) && Reachable(cfg, spec, w)
    ensures (exists w' :: Leads(cfg, spec, w, w') && CleanedUp(w')) <==> !Leaked(w)
  {
    ReachableInv(cfg, spec, w);
    if Leaked(w) {
      forall w' | Leads(cfg, spec, w, w') ensures !CleanedUp(w') {
        var worlds, acts :| Stretch(cfg, spec, worlds, acts) && worlds[0] == w && worlds[|acts|] == w';
        LeakedForGood(cfg, spec, worlds, acts, |acts|);
      }
    } else {
      var w1 := AskForDeletion(cfg, spec, w);
      if w1.exists_ {
        w1 := RemoveObject(cfg, spec, w, w1);
      }
      if w1.pool.Deleting? {
        LeadsOn(cfg, spec, w, w1, PoolGone);
        w1 := Step(cfg, spec, w1, PoolGone);
      }
      assert CleanedUp(w1);
    }
  }
}

/** What the tally of a log says about the events in it. */
module LogFacts {
  import opened Lifecycle
  import opened Invariant

  /** A delete call took effect and no create call has since. */
  ghost predicate EndedSince(log: seq<Event>) {
    exists i :: 0 <= i < |log| && PoolEnded(log[i]) && forall j :: i < j < |log| ==> !PoolStarted(log[j])
  }

  /** A create call was answered and nothing since then excuses another one. */
  ghost predicate Outstanding(log: seq<Event>) {
    exists i :: 0 <= i < |log| && Answered(log[i]) && forall j :: i < j < |log| ==> !Excuse(log[j])
  }

  /** No create call follows an answered one without an excuse between the two. */
  ghost predicate CreatedOnce(log: seq<Event>) {
    forall i, j :: 0 <= i < j < |log| && Answered(log[i]) && log[j].CreateCalled? ==>
      exists k :: i < k < j && Excuse(log[k])
  }

  function Records(log: seq<Event>): nat {
    if log == [] then 0
    else Records(log[..|log| - 1]) + if log[|log| - 1].HistoryWritten? then 1 else 0
  }

  function FinalLosses(log: seq<Event>): nat {
    if log == [] then 0
    else FinalLosses(log[..|log| - 1]) + if FinalLoss(log[|log| - 1]) then 1 else 0
  }

  // ----- one event more

  lemma EndedSinceGrows(log: seq<Event>, e: Event)
    ensures EndedSince(log + [e]) <==> PoolEnded(e) || (EndedSince(log) && !PoolStarted(e))
  {
    var l := log + [e];
    if PoolEnded(e) {
      assert PoolEnded(l[|log|]);
    } else if EndedSince(log) && !PoolStarted(e) {
      var i :| 0 <= i < |log| && PoolEnded(log[i]) && forall j :: i < j < |log| ==> !PoolStarted(log[j]);
      assert PoolEnded(l[i]);
    }
    if EndedSince(l) && !PoolEnded(e) {
      var i :| 0 <= i < |l| && PoolEnded(l[i]) && forall j :: i < j < |l| ==> !PoolStarted(l[j]);
      assert !PoolStarted(l[|log|]);
      assert PoolEnded(log[i]);
      forall j | i < j < |log| ensures !PoolStarted(log[j]) {
        assert !PoolStarted(l[j]);
      }
    }
  }

  lemma OutstandingGrows(log: seq<Event>, e: Event)
    ensures Outstanding(log + [e]) <==> Answered(e) || (Outstanding(log) && !Excuse(e))
  {
    var l := log + [e];
    if Answered(e) {
      assert Answered(l[|log|]);
    } else if Outstanding(log) && !Excuse(e) {
      var i :| 0 <= i < |log| && Answered(log[i]) && forall j :: i < j < |log| ==> !Excuse(log[j]);
      assert Answered(l[i]);
    }
    if Outstanding(l) && !Answered(e) {
      var i :| 0 <= i < |l| && Answered(l[i]) && forall j :: i < j < |l| ==> !Excuse(l[j]);
      assert !Excuse(l[|log|]);
      assert Answered(log[i]);
      forall j | i < j < |log| ensures !Excuse(log[j]) {
        assert !Excuse(l[j]);
      }
    }
  }

  lemma CreatedOnceGrows(log: seq<Event>, e: Event)
    requires CreatedOnce(log) && (e.CreateCalled? ==> !Outstanding(log))
    ensures CreatedOnce(log + [e])
  {
    var l := log + [e];
    forall i, j | 0 <= i < j < |l| && Answered(l[i]) && l[j].CreateCalled?
      ensures exists k :: i < k < j && Excuse(l[k])
    {
      assert Answered(log[i]);
      if j < |log| {
        assert log[j].CreateCalled?;
      }
      var k :| i < k < j && Excuse(log[k]);
      assert Excuse(l[k]);
    }
  }

  // ----- the whole log

  /** The tally says, field by field, what the log says event by event: the pool, then the records. */
  ghost predicate MeansPool(t: Tally, log: seq<Event>) {
    && (t.unexcused <==> Outstanding(log))
    && (!t.repeats ==> CreatedOnce(log))
    && (t.deletedSince <==> EndedSince(log))
    && (t.tornDown <==> DeleteCalled(Collecting, true) in log)
  }

  ghost predicate MeansRecords(t: Tally, log: seq<Event>) {
    && t.histories == Records(log)
    && t.finalLosses == FinalLosses(log)
    && (t.succeededLost <==> Lost(SucceededWrite) in log)
    && (t.missing <==> GaveUp(MissingTopology) in log)
  }

  lemma MeansPoolGrows(t: Tally, log: seq<Event>, e: Event)
    requires MeansPool(t, log)
    ensures MeansPool(Count(t, e), log + [e])
  {
    EndedSinceGrows(log, e);
    OutstandingGrows(log, e);
    if !t.repeats && !(e.CreateCalled? && t.unexcused) {
      CreatedOnceGrows(log, e);
    }
  }

  lemma MeansRecordsGrows(t: Tally, log: seq<Event>, e: Event)
    requires MeansRecords(t, log)
    ensures MeansRecords(Count(t, e), log + [e])
  {
    assert (log + [e])[..|log|] == log;
  }

  lemma {:induction false} TallyMeans(log: seq<Event>)
    ensures MeansPool(TallyOf(log), log) && MeansRecords(TallyOf(log), log)
  {
    if log != [] {
      var n := |log| - 1;
      TallyMeans(log[..n]);
      MeansPoolGrows(TallyOf(log[..n]), log[..n], log[n]);
      MeansRecordsGrows(TallyOf(log[..n]), log[..n], log[n]);
      assert log == log[..n] + [log[n]];
    }
  }
}

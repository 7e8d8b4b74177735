/** The life of a run: queued, claimed, ended once; and who ends it how. */
module RunLives {
  import opened Options
  import opened Tables
  import opened Steps
  import opened Invariants
  import opened Preservation
  import opened Histories

  predicate Ended(run: Run) {
    run.status == Succeeded || run.status == Failed || run.status == Cancelled
  }

  /** What one action may make of a run. */
  ghost predicate Lives(s: State, a: Action, t: State, i: nat)
    requires i < |s.runs| <= |t.runs|
  {
    var run, run' := s.runs[i], t.runs[i];
    && run'.job == run.job && run'.trigger == run.trigger && run'.requestedAt == run.requestedAt
    && (Ended(run) ==> run' == run)
    && (run'.status != run.status ==>
          match run'.status
          case Queued => false
          case Active => run.status == Queued && a.DoClaimRun?
          case Succeeded => run.status == Active && a.DoFinishRun? && a.run == i && a.succeeded
          case Failed => run.status == Active && ((a.DoFinishRun? && a.run == i && !a.succeeded) || (a.DoClaimRun? && LeaseRanOut(s, run.job, a.now)))
          case Cancelled => (run.status == Active && a.DoCancelRun? && a.run == i) || (run.status == Queued && (a.DoCommand? || a.DoReconcile?)))
  }

  predicate LeaseRanOut(s: State, j: nat, now: Time) {
    j < |s.runtimes| && s.runtimes[j].lease.Some? && s.runtimes[j].lease.value.until <= now
  }

  /** The sweep fails active runs whose lease has run out, and touches no other. */
  lemma {:induction false} SweepLives(s: State, now: Time, j: nat, i: nat)
    requires Shaped(s) && j <= |s.jobs| && i < |s.runs|
    ensures var t := Sweep(s, now, j);
            && |t.runs| == |s.runs|
            && (t.runs[i] == s.runs[i]
                || (s.runs[i].status == Active && t.runs[i] == s.runs[i].(status := Failed, result := t.runs[i].result) && LeaseRanOut(s, s.runs[i].job, now)))
    decreases |s.jobs| - j
  {
    if j < |s.jobs| {
      SweepLives(if Expired(s.runtimes[j], now) then ExpireClaim(s, j, now) else s, now, j + 1, i);
    }
  }

  lemma SelectLives(cal: Calendar, s: State, now: Time, pick: Option<nat>, due: seq<nat>, i: nat)
    requires Shaped(s) && i < |s.runs|
    ensures var (t, r) := SelectRun(cal, s, now, pick, due);
            && |s.runs| <= |t.runs|
            && (t.runs[i] == s.runs[i]
                || (s.runs[i].status == Active && t.runs[i] == s.runs[i].(status := Failed, result := t.runs[i].result) && LeaseRanOut(s, s.runs[i].job, now)))
            && (r.Some? ==> t.runs[r.value].status == Queued)
  {
    hide Sweep, Defer;
    SweepLives(s, now, 0, i);
    var s1 := Sweep(s, now, 0);
    if pick.Some? && FirstClaimable(s1, now, pick) { assert Claimable(s1, now, pick.value); }
    SweepCounts(s, now, 0);
  }

  lemma {:induction false} SweepCounts(s: State, now: Time, j: nat)
    requires Shaped(s) && j <= |s.jobs|
    ensures |Sweep(s, now, j).runs| == |s.runs|
    decreases |s.jobs| - j
  {
    if j < |s.jobs| { SweepCounts(if Expired(s.runtimes[j], now) then ExpireClaim(s, j, now) else s, now, j + 1); }
  }

  lemma CommandLives(s: State, a: Action, i: nat)
    requires Shaped(s) && a.DoCommand? && i < |s.runs|
    ensures var t := Kept(s, Execute(s, a.key, a.request, a.context)); |s.runs| <= |t.runs| && Lives(s, a, t, i)
  {
    hide Mutate;
    MutateLives(s, a, i);
  }

  /** A command that asks for a run queues one, or leaves the runs there are. */
  lemma EnqueueLives(s: State, a: Action, i: nat)
    requires Shaped(s) && a.DoCommand? && a.request.op.RunNow? && i < |s.runs|
    ensures var r := Mutate(s, a.request, |s.commands|, a.context); r.Ok? ==> |s.runs| <= |r.state.runs| && Lives(s, a, r.state, i)
  {
    if a.request.op.job < |s.jobs| && a.context.pick.Some? && FirstCovering(s, a.request.op.job, a.context.now, a.context.pick) {
      assert Covers(s, a.request.op.job, a.context.now, a.context.pick.value);
    }
  }

  /** An archive cancels the runs of its job that are still queued. */
  lemma ArchiveLives(s: State, a: Action, i: nat)
    requires Shaped(s) && a.DoCommand? && a.request.op.Archive? && i < |s.runs|
    ensures var r := Mutate(s, a.request, |s.commands|, a.context); r.Ok? ==> |s.runs| <= |r.state.runs| && Lives(s, a, r.state, i)
  {
    hide AwaitsDelivery, DropAlerts;
  }

  lemma MutateLives(s: State, a: Action, i: nat)
    requires Shaped(s) && a.DoCommand? && i < |s.runs|
    ensures var r := Mutate(s, a.request, |s.commands|, a.context); r.Ok? ==> |s.runs| <= |r.state.runs| && Lives(s, a, r.state, i)
  {
    hide LiveTemplate, EnqueueRun, ArchiveJob;
    if a.request.op.RunNow? { EnqueueLives(s, a, i); }
    if a.request.op.Archive? { ArchiveLives(s, a, i); }
  }

  lemma StepLives(cal: Calendar, s: State, a: Action, i: nat)
    requires Shaped(s) && i < |s.runs|
    ensures var t := Step(cal, s, a); |s.runs| <= |t.runs| && Lives(s, a, t, i)
  {
    hide Execute, SelectRun, OldestOutOfSync, FirstDeliverable;
    if a.DoCommand? { CommandLives(s, a, i); }
    if a.DoClaimRun? { SelectLives(cal, s, a.now, a.pick, a.due, i); }
  }

  /** A run that has ended never changes again. */
  lemma {:induction false} EndedForever(cal: Calendar, s: State, acts: seq<Action>, i: nat)
    requires Valid(s) && i < |s.runs| && Ended(s.runs[i])
    ensures var t := History(cal, s, acts); i < |t.runs| && t.runs[i] == s.runs[i]
    decreases |acts|
  {
    hide Valid, Step;
    if acts != [] {
      ShapedOf(s);
      StepKeeps(cal, s, acts[0]);
      StepLives(cal, s, acts[0], i);
      EndedForever(cal, Step(cal, s, acts[0]), acts[1..], i);
    }
  }

  predicate Succeeds(a: Action, i: nat) {
    a.DoFinishRun? && a.run == i && a.succeeded
  }

  /** A run stands as succeeded only because its holder reported success. */
  lemma {:induction false} SuccessIsReported(cal: Calendar, s: State, acts: seq<Action>, i: nat)
    requires Valid(s) && i < |s.runs| && s.runs[i].status != Succeeded
    requires var t := History(cal, s, acts); i < |t.runs| && t.runs[i].status == Succeeded
    ensures exists k :: 0 <= k < |acts| && Succeeds(acts[k], i)
    decreases |acts|
  {
    hide Valid, Step;
    if acts != [] {
      ShapedOf(s);
      StepKeeps(cal, s, acts[0]);
      StepLives(cal, s, acts[0], i);
      if !Succeeds(acts[0], i) {
        SuccessIsReported(cal, Step(cal, s, acts[0]), acts[1..], i);
        var k :| 0 <= k < |acts[1..]| && Succeeds(acts[1..][k], i);
        assert Succeeds(acts[k + 1], i);
      }
    }
  }
}

/** When an archived job stays archived: exactly when its archive found no lease. */
module ArchivedJobs {
  import opened Options
  import opened Tables
  import opened Steps
  import opened Invariants
  import opened Preservation
  import opened Histories

  /** The job is archived, and no run of it is left to end. */
  predicate Rests(s: State, j: nat) {
    && j < |s.jobs| == |s.runtimes| && s.jobs[j].archived
    && s.runtimes[j].actual == Archived && s.runtimes[j].lease.None?
  }

  predicate Stands(s: State, j: nat, actual: ActualState) {
    j < |s.runtimes| && s.runtimes[j].actual == actual
  }

  /** Whatever anyone does from then on, at whatever clock readings. */
  ghost predicate StaysArchived(cal: Calendar, s: State, j: nat)
    requires Valid(s)
  {
    forall acts :: Stands(History(cal, s, acts), j, Archived)
  }

  // ----- No step wakes a job at rest

  lemma {:induction false} SweepRests(s: State, now: Time, i: nat, j: nat)
    requires Shaped(s) && i <= |s.jobs| && Rests(s, j)
    ensures Rests(Sweep(s, now, i), j)
    decreases |s.jobs| - i
  {
    if i < |s.jobs| { SweepRests(if Expired(s.runtimes[i], now) then ExpireClaim(s, i, now) else s, now, i + 1, j); }
  }

  lemma {:induction false} DeferRests(cal: Calendar, s: State, now: Time, due: seq<nat>, j: nat)
    requires Shaped(s) && (forall i | 0 <= i < |due| :: due[i] < |s.jobs|) && Rests(s, j)
    ensures Rests(Defer(cal, s, now, due).0, j)
    decreases |due|
  {
    if due != [] && !cal.active(now, s.jobs[due[0]].schedule) {
      var k := due[0];
      DeferRests(cal, s.(runtimes := s.runtimes[k := s.runtimes[k].(nextRun := Some(cal.next(now, s.jobs[k].schedule)))]), now, due[1..], j);
    }
  }

  /** The run that is selected belongs to a job that is not archived. */
  lemma SelectRests(cal: Calendar, s: State, now: Time, pick: Option<nat>, due: seq<nat>, j: nat)
    requires Shaped(s) && Rests(s, j)
    ensures var (t, r) := SelectRun(cal, s, now, pick, due); Rests(t, j) && (r.Some? ==> t.runs[r.value].job != j)
  {
    hide Sweep, Defer;
    var s1 := Sweep(s, now, 0);
    SweepRests(s, now, 0, j);
    if FirstClaimable(s1, now, pick) {
      if pick.Some? { assert Claimable(s1, now, pick.value); }
      else if DueOrder(s1, now, due) {
        DeferRests(cal, s1, now, due, j);
        assert forall k | k in due :: Due(s1, now, k);
      }
    }
  }

  lemma ClaimRests(cal: Calendar, s: State, owner: Owner, seconds: int, now: Time, pick: Option<nat>, due: seq<nat>, j: nat)
    requires Shaped(s) && Rests(s, j)
    ensures Rests(ClaimRun(cal, s, owner, seconds, now, pick, due).0, j)
  {
    hide SelectRun;
    SelectRests(cal, s, now, pick, due, j);
  }

  lemma SettingRests(s: State, job: nat, enabled: bool, schedule: Schedule, expected: int, now: Time, j: nat)
    requires Shaped(s) && Rests(s, j)
    ensures var r := SetJobEnabled(s, job, enabled, expected, now); r.Ok? ==> Rests(r.state, j)
    ensures var r := SetJobSchedule(s, job, schedule, expected, now); r.Ok? ==> Rests(r.state, j)
  {
  }

  lemma EnqueueRests(s: State, job: nat, command: nat, expected: int, now: Time, pick: Option<nat>, j: nat)
    requires Shaped(s) && Rests(s, j)
    ensures var r := EnqueueRun(s, job, command, expected, now, pick); r.Ok? ==> Rests(r.state, j)
  {
    hide Covers;
  }

  lemma ArchiveRests(s: State, job: nat, expected: int, checked: Time, now: Time, j: nat)
    requires Shaped(s) && Rests(s, j)
    ensures var r := ArchiveJob(s, job, expected, checked, now); r.Ok? ==> Rests(r.state, j)
  {
    hide DropAlerts, AwaitsDelivery;
  }

  lemma MutateRests(s: State, request: Request, command: nat, c: Context, j: nat)
    requires Shaped(s) && Rests(s, j)
    ensures var r := Mutate(s, request, command, c); r.Ok? ==> Rests(r.state, j)
  {
    hide LiveTemplate, EnqueueRun, ArchiveJob, SetJobEnabled, SetJobSchedule;
    match request.op {
      case CreateFromTemplate(_, _) =>
      case SetGlobalHold(_, _, _) =>
      case SetEnabled(job, enabled) => SettingRests(s, job, enabled, Schedule(0, "", AllDay), request.expected, c.now, j);
      case SetSchedule(job, schedule) => SettingRests(s, job, false, schedule, request.expected, c.now, j);
      case RunNow(job) => EnqueueRests(s, job, command, request.expected, c.now, c.pick, j);
      case TestNotification(job) =>
      case Archive(job) => ArchiveRests(s, job, request.expected, c.checked, c.now, j);
    }
  }

  lemma CommandRests(s: State, key: string, request: Request, c: Context, j: nat)
    requires Shaped(s) && Rests(s, j)
    ensures Rests(Kept(s, Execute(s, key, request, c)), j)
  {
    hide Mutate;
    MutateRests(s, request, |s.commands|, c, j);
  }

  lemma StepRests(cal: Calendar, s: State, a: Action, j: nat)
    requires Shaped(s) && Rests(s, j)
    ensures Rests(Step(cal, s, a), j)
  {
    hide Execute, ClaimRun, OldestOutOfSync, FirstDeliverable;
    if a.DoCommand? { CommandRests(s, a.key, a.request, a.context, j); }
    if a.DoClaimRun? { ClaimRests(cal, s, a.owner, a.seconds, a.now, a.pick, a.due, j); }
    if a.DoReconcile? && OldestOutOfSync(s, a.pick) && a.pick.Some? { PickIsListed(s, a.pick); }
  }

  lemma PickIsListed(s: State, pick: Option<nat>)
    requires Shaped(s) && OldestOutOfSync(s, pick) && pick.Some?
    ensures pick.value < |s.jobs| && !s.jobs[pick.value].archived
  {
  }

  lemma {:induction false} HistoryRests(cal: Calendar, s: State, acts: seq<Action>, j: nat)
    requires Valid(s) && Rests(s, j)
    ensures Rests(History(cal, s, acts), j)
    decreases |acts|
  {
    hide Valid, Step, Rests;
    if acts != [] {
      ShapedOf(s);
      StepKeeps(cal, s, acts[0]);
      StepRests(cal, s, acts[0], j);
      HistoryRests(cal, Step(cal, s, acts[0]), acts[1..], j);
    }
  }

  // ----- What a lease that is left can do

  lemma OneStep(cal: Calendar, s: State, a: Action)
    requires Valid(s)
    ensures Shaped(s) && Valid(Step(cal, s, a)) && History(cal, s, [a]) == Step(cal, s, a)
  {
    hide Valid, Step;
    ShapedOf(s);
    StepKeeps(cal, s, a);
    assert [a][1..] == [];
    assert History(cal, Step(cal, s, a), []) == Step(cal, s, a);
  }

  /** The run that holds the lease can still be ended under it. */
  lemma HolderEnds(cal: Calendar, s: State, j: nat) returns (a: Action)
    requires Valid(s) && Shaped(s) && j < |s.jobs| && s.jobs[j].archived && s.runtimes[j].lease.Some?
    ensures a.DoCancelRun? && Stands(Step(cal, s, a), j, Disabled)
  {
    hide Alerted, KeysUnique, CommandsUnique, Answered, RunNows;
    var owner, token := s.runtimes[j].lease.value.owner, s.runtimes[j].fence;
    assert HasHolder(s, j);
    var run :| 0 <= run < |s.runs| && IsClaimOf(s.runs[run], j, owner, token);
    assert JobAgrees(s, j);
    a := DoCancelRun(j, run, owner, token, "automation_claim_superseded", 0);
    assert Owns(s, j, run, owner, token);
  }

  lemma {:induction false} SweepReaches(s: State, now: Time, i: nat, j: nat)
    requires Shaped(s) && i <= j < |s.jobs| && Expired(s.runtimes[j], now)
    ensures Sweep(s, now, i).runtimes[j].actual == Errored
    decreases |s.jobs| - i
  {
    var t := if Expired(s.runtimes[i], now) then ExpireClaim(s, i, now) else s;
    if i == j { SweepPasses(t, now, i + 1, j); } else { SweepReaches(t, now, i + 1, j); }
  }

  lemma {:induction false} SweepPasses(s: State, now: Time, i: nat, j: nat)
    requires Shaped(s) && j < i <= |s.jobs|
    ensures Sweep(s, now, i).runtimes[j] == s.runtimes[j]
    decreases |s.jobs| - i
  {
    if i < |s.jobs| { SweepPasses(if Expired(s.runtimes[i], now) then ExpireClaim(s, i, now) else s, now, i + 1, j); }
  }

  /** Nor does the holder have to act: without a hold, the next claim by anyone after the lease has run
      out sweeps the job into the error state. */
  lemma SweepWakes(cal: Calendar, s: State, owner: Owner, seconds: int, now: Time, pick: Option<nat>, due: seq<nat>, j: nat)
    requires Shaped(s) && j < |s.jobs| && s.jobs[j].archived && Expired(s.runtimes[j], now)
    requires !s.hold.enabled && 10 <= seconds <= 600
    ensures ClaimRun(cal, s, owner, seconds, now, pick, due).0.runtimes[j].actual == Errored
  {
    hide Sweep, Defer;
    SweepReaches(s, now, 0, j);
    var s1 := Sweep(s, now, 0);
    if FirstClaimable(s1, now, pick) {
      if pick.Some? { assert Claimable(s1, now, pick.value); }
      else if DueOrder(s1, now, due) {
        assert forall k | k in due :: Due(s1, now, k);
        DeferPasses(cal, s1, now, due, j);
      }
    }
  }

  lemma {:induction false} DeferPasses(cal: Calendar, s: State, now: Time, due: seq<nat>, j: nat)
    requires Shaped(s) && (forall i | 0 <= i < |due| :: due[i] < |s.jobs|) && j < |s.jobs|
    ensures Defer(cal, s, now, due).0.runtimes[j].actual == s.runtimes[j].actual
    decreases |due|
  {
    if due != [] && !cal.active(now, s.jobs[due[0]].schedule) {
      var k := due[0];
      DeferPasses(cal, s.(runtimes := s.runtimes[k := s.runtimes[k].(nextRun := Some(cal.next(now, s.jobs[k].schedule)))]), now, due[1..], j);
    }
  }

  // ----- The exact condition

  /** A job that is archived stays so exactly when no lease is left on it. */
  lemma ArchivedStays(cal: Calendar, s: State, j: nat)
    requires Valid(s) && j < |s.jobs| == |s.runtimes| && s.jobs[j].archived && s.runtimes[j].actual == Archived
    ensures StaysArchived(cal, s, j) <==> s.runtimes[j].lease.None?
  {
    hide Valid, Step;
    ShapedOf(s);
    if s.runtimes[j].lease.None? {
      forall acts ensures Stands(History(cal, s, acts), j, Archived) { HistoryRests(cal, s, acts, j); }
    } else {
      var a := HolderEnds(cal, s, j);
      OneStep(cal, s, a);
      assert !Stands(History(cal, s, [a]), j, Archived);
    }
  }

  /** What an accepted archive leaves. */
  lemma ArchiveLeaves(cal: Calendar, s: State, a: Action, j: nat)
    requires Shaped(s) && a.DoCommand? && a.request.op == Archive(j) && j < |s.jobs| && !s.jobs[j].archived
    requires var t := Step(cal, s, a); j < |t.jobs| && t.jobs[j].archived
    ensures var t := Step(cal, s, a);
            && |t.jobs| == |t.runtimes| && t.runtimes[j].actual == Archived && t.runtimes[j].lease == s.runtimes[j].lease
  {
    hide DropAlerts, AwaitsDelivery;
  }

  /** After an accepted archive the job stays archived, whatever happens, exactly when the archive found no
      lease on it; it refuses only a lease that has not run out. */
  lemma ArchiveIsFinal(cal: Calendar, s: State, a: Action, j: nat)
    requires Valid(s) && Shaped(s) && a.DoCommand? && a.request.op == Archive(j) && j < |s.jobs| && !s.jobs[j].archived
    requires var t := Step(cal, s, a); j < |t.jobs| && t.jobs[j].archived
    ensures Valid(Step(cal, s, a))
    ensures StaysArchived(cal, Step(cal, s, a), j) <==> s.runtimes[j].lease.None?
  {
    hide Valid, Step, StaysArchived;
    StepKeeps(cal, s, a);
    ArchiveLeaves(cal, s, a, j);
    ArchivedStays(cal, Step(cal, s, a), j);
  }
}

/** Points where the store keeps less than a tidier claim would have it: for each, what it does keep, and
a history from the empty tables that shows the rest. */
module TidierClaims {
  import opened Options
  import opened Tables
  import opened Steps
  import opened Invariants
  import opened Preservation
  import opened Histories
  import opened ArchivedJobs
  import Scheduler

  // ----- Ending a run does not ask for its lease

  /** The run was claimed by this owner under this token. */
  predicate ClaimedBy(s: State, job: nat, run: nat, owner: Owner, token: nat) {
    && run < |s.runs| && s.runs[run].job == job && s.runs[run].grant.Some?
    && s.runs[run].grant.value.owner == owner && s.runs[run].grant.value.fence == token
  }

  /** A claimed run can be finished or cancelled exactly while it is active, at any clock reading: a lease
      that has run out prevents neither until a sweep has failed the run. */
  lemma EndsWhileActive(cal: Calendar, s: State, job: nat, run: nat, owner: Owner, token: nat, succeeded: bool, code: Code, delay: Option<int>, now: Time)
    requires Valid(s) && Shaped(s) && ClaimedBy(s, job, run, owner, token) && (delay.Some? ==> 5 <= delay.value <= 86400)
    ensures FinishRun(cal, s, job, run, owner, token, succeeded, code, delay, now).1 <==> s.runs[run].status == Active
    ensures CancelRun(cal, s, job, run, owner, token, code, now).1 <==> s.runs[run].status == Active
  {
    hide Agreed, Alerted, KeysUnique, CommandsUnique, Answered, RunNows;
    if s.runs[run].status == Active { assert HeldByRun(s, run); }
  }

  // ----- A heartbeat extends the lease before it looks at the run

  /** Reported and extended come apart only for a run that is not the caller's: naming the run it claimed, a
      caller hears of success exactly when its lease was extended. */
  lemma HeartbeatAgrees(s: State, job: nat, run: nat, owner: Owner, token: nat, seconds: int, now: Time)
    requires Valid(s) && Shaped(s) && ClaimedBy(s, job, run, owner, token)
    ensures Heartbeat(s, job, run, owner, token, seconds, now).1
            <==> job < |s.jobs| && Holds(s.runtimes[job], owner, token) && LeaseActive(s.runtimes[job], now)
  {
    hide Agreed, Alerted, KeysUnique, CommandsUnique, Answered, RunNows;
    if job < |s.jobs| && Holds(s.runtimes[job], owner, token) {
      assert HasHolder(s, job);
      var i :| 0 <= i < |s.runs| && IsClaimOf(s.runs[i], job, owner, token);
      assert i == run;
    }
  }

  // ----- A queued run is claimed whether or not its job is in sync

  /** Only a run that a due schedule starts needs its job in sync. */
  lemma DueClaimInSync(cal: Calendar, s: State, owner: Owner, seconds: int, now: Time, due: seq<nat>)
    requires Shaped(s)
    ensures var (t, claim) := ClaimRun(cal, s, owner, seconds, now, None, due);
            claim.Some? ==>
              && claim.value.job < |t.jobs| == |t.runtimes|
              && t.runtimes[claim.value.job].applied == t.jobs[claim.value.job].revision == claim.value.revision
  {
    hide Sweep, FirstClaimable;
    var s1 := Sweep(s, now, 0);
    if DueOrder(s1, now, due) {
      assert forall k | k in due :: Due(s1, now, k);
      DeferKeepsApplied(cal, s1, now, due);
    }
  }

  lemma {:induction false} DeferKeepsApplied(cal: Calendar, s: State, now: Time, due: seq<nat>)
    requires Shaped(s) && forall i | 0 <= i < |due| :: due[i] < |s.jobs|
    ensures forall j | 0 <= j < |s.jobs| :: Defer(cal, s, now, due).0.runtimes[j].applied == s.runtimes[j].applied
    decreases |due|
  {
    if due != [] && !cal.active(now, s.jobs[due[0]].schedule) {
      var k := due[0];
      DeferKeepsApplied(cal, s.(runtimes := s.runtimes[k := s.runtimes[k].(nextRun := Some(cal.next(now, s.jobs[k].schedule)))]), now, due[1..]);
    }
  }

  // ----- A job that is created, enabled, asked to run and claimed

  const CREATE := Asks("create", CreateFromTemplate(CrmDigest, HOURLY), 0, 0)
  const ENABLE := Asks("enable", SetEnabled(0, true), 1, 0)
  const RUN := Asks("run", RunNow(0), 2, 0)
  const CLAIM := DoClaimRun(0, 60, 0, Some(0), [])
  const DISABLE := Asks("disable", SetEnabled(0, false), 2, 30)
  const ARCHIVE := Asks("archive", Archive(0), 3, 60)
  const SWEEP := DoClaimRun(1, 60, 60, None, [])

  const CREATED_COMMAND := Command(System, "create", Asking(CreateFromTemplate(CrmDigest, HOURLY), 0), Created(0))
  const ENABLED_COMMAND := Command(System, "enable", Asking(SetEnabled(0, true), 1), Changed(true))
  const RUN_COMMAND := Command(System, "run", Asking(RunNow(0), 2), Enqueued(0, false))
  const DISABLED_COMMAND := Command(System, "disable", Asking(SetEnabled(0, false), 2), Changed(true))
  const ARCHIVED_COMMAND := Command(System, "archive", Asking(Archive(0), 3), JobArchived(4))

  const CREATED := EMPTY.(jobs := [Job(CrmDigest, false, HOURLY, 1, 0, false)],
                          runtimes := [Runtime(Disabled, None, None, 0, None, None, 1)],
                          commands := [CREATED_COMMAND])
  const ENABLED := CREATED.(jobs := [Job(CrmDigest, true, HOURLY, 2, 0, false)],
                            commands := [CREATED_COMMAND, ENABLED_COMMAND])
  const ASKED := ENABLED.(runtimes := [Runtime(Waiting, None, None, 0, None, None, 1)],
                          runs := [Run(0, Manual(2), Queued, 0, None, 0, None)],
                          commands := [CREATED_COMMAND, ENABLED_COMMAND, RUN_COMMAND])
  const CLAIMED := ASKED.(runtimes := [Runtime(Running, None, Some(Lease(0, 60)), 1, None, None, 1)],
                          runs := [Run(0, Manual(2), Active, 0, Some(Grant(0, 1, 2)), 0, None)])
  const DISABLING := CLAIMED.(jobs := [Job(CrmDigest, false, HOURLY, 3, 30, false)],
                              runtimes := [Runtime(Stopping, None, Some(Lease(0, 60)), 1, None, None, 1)],
                              commands := [CREATED_COMMAND, ENABLED_COMMAND, RUN_COMMAND, DISABLED_COMMAND])
  const ARCHIVED := DISABLING.(jobs := [Job(CrmDigest, false, HOURLY, 4, 60, true)],
                               runtimes := [Runtime(Archived, None, Some(Lease(0, 60)), 1, None, None, 4)],
                               commands := [CREATED_COMMAND, ENABLED_COMMAND, RUN_COMMAND, DISABLED_COMMAND, ARCHIVED_COMMAND])

  lemma Creating(cal: Calendar)
    ensures Shaped(EMPTY) && Step(cal, EMPTY, CREATE) == CREATED
  {
  }

  lemma Enabling(cal: Calendar)
    ensures Shaped(CREATED) && Step(cal, CREATED, ENABLE) == ENABLED
  {
  }

  lemma Requesting(cal: Calendar)
    ensures Shaped(ENABLED) && Step(cal, ENABLED, RUN) == ASKED
  {
  }

  lemma Claiming(cal: Calendar)
    ensures Shaped(ASKED) && Step(cal, ASKED, CLAIM) == CLAIMED
  {
    assert Sweep(ASKED, 0, 1) == ASKED;
    assert Sweep(ASKED, 0, 0) == ASKED;
    assert FirstClaimable(ASKED, 0, Some(0));
  }

  lemma Disabling(cal: Calendar)
    ensures Shaped(CLAIMED) && Step(cal, CLAIMED, DISABLE) == DISABLING
  {
  }

  lemma Archiving(cal: Calendar)
    ensures Shaped(DISABLING) && Step(cal, DISABLING, ARCHIVE) == ARCHIVED
  {
  }

  /** One step after a history. */
  lemma {:induction false} ThenStep(cal: Calendar, s: State, acts: seq<Action>, a: Action)
    requires Valid(s)
    ensures Shaped(History(cal, s, acts)) && History(cal, s, acts + [a]) == Step(cal, History(cal, s, acts), a)
    decreases |acts|
  {
    hide Valid, Step;
    if acts == [] {
      OneStep(cal, s, a);
      assert acts + [a] == [a];
    } else {
      ShapedOf(s);
      StepKeeps(cal, s, acts[0]);
      assert (acts + [a])[0] == acts[0] && (acts + [a])[1..] == acts[1..] + [a];
      ThenStep(cal, Step(cal, s, acts[0]), acts[1..], a);
    }
  }

  lemma ReachesClaimed(cal: Calendar)
    ensures Reached(cal, [CREATE, ENABLE, RUN, CLAIM]) == CLAIMED
  {
    hide Valid, Step;
    EmptyIsValid();
    Creating(cal);
    Enabling(cal);
    Requesting(cal);
    Claiming(cal);
    OneStep(cal, EMPTY, CREATE);
    ThenStep(cal, EMPTY, [CREATE], ENABLE);
    ThenStep(cal, EMPTY, [CREATE, ENABLE], RUN);
    ThenStep(cal, EMPTY, [CREATE, ENABLE, RUN], CLAIM);
    assert [CREATE] + [ENABLE] == [CREATE, ENABLE];
    assert [CREATE, ENABLE] + [RUN] == [CREATE, ENABLE, RUN];
    assert [CREATE, ENABLE, RUN] + [CLAIM] == [CREATE, ENABLE, RUN, CLAIM];
  }

  lemma ReachesArchived(cal: Calendar)
    ensures Reached(cal, [CREATE, ENABLE, RUN, CLAIM, DISABLE, ARCHIVE]) == ARCHIVED
  {
    hide Valid, Step;
    EmptyIsValid();
    ReachesClaimed(cal);
    Disabling(cal);
    Archiving(cal);
    ThenStep(cal, EMPTY, [CREATE, ENABLE, RUN, CLAIM], DISABLE);
    ThenStep(cal, EMPTY, [CREATE, ENABLE, RUN, CLAIM, DISABLE], ARCHIVE);
    assert [CREATE, ENABLE, RUN, CLAIM] + [DISABLE] == [CREATE, ENABLE, RUN, CLAIM, DISABLE];
    assert [CREATE, ENABLE, RUN, CLAIM, DISABLE] + [ARCHIVE] == [CREATE, ENABLE, RUN, CLAIM, DISABLE, ARCHIVE];
  }

  // ----- What such histories show

  /** A queued run has been claimed, and is current, while its job waits for its first reconciliation. */
  lemma ClaimedOutOfSync(cal: Calendar) returns (acts: seq<Action>)
    ensures var s := Reached(cal, acts);
            Shaped(s) && |s.jobs| == 1 && OutOfSync(s, 0) && RunClaimCurrent(s, Claim(0, 0, 0, 2, 1), 0)
  {
    acts := [CREATE, ENABLE, RUN, CLAIM];
    ReachesClaimed(cal);
  }

  /** A run is finished long after its lease has run out, and as successful. */
  lemma ExpiredFinishes(cal: Calendar) returns (acts: seq<Action>)
    ensures var s := Reached(cal, acts);
            && Shaped(s) && |s.jobs| == 1 && Expired(s.runtimes[0], 1000)
            && FinishRun(cal, s, 0, 0, 0, 1, true, "ok", None, 1000).1
            && CancelRun(cal, s, 0, 0, 0, 1, "automation_claim_superseded", 1000).1
  {
    acts := [CREATE, ENABLE, RUN, CLAIM];
    ReachesClaimed(cal);
  }

  /** A heartbeat that names no run extends the lease and reports failure. */
  lemma ExtendsButFails(cal: Calendar) returns (acts: seq<Action>)
    ensures var s := Reached(cal, acts);
            && Shaped(s) && |s.jobs| == 1
            && var (t, alive) := Heartbeat(s, 0, 1, 0, 1, 60, 30);
            !alive && t.runtimes[0].lease == Some(Lease(0, 90)) && s.runtimes[0].lease == Some(Lease(0, 60))
  {
    acts := [CREATE, ENABLE, RUN, CLAIM];
    ReachesClaimed(cal);
  }

  /** A disabled job whose run still has its lease holds up the whole turn. */
  lemma LeaseHoldsUp(cal: Calendar, first: seq<Action>, second: seq<Action>) returns (acts: seq<Action>, x: Scheduler.Readings)
    ensures var s := Reached(cal, acts);
            && Shaped(s) && OldestOutOfSync(s, x.oldest)
            && Scheduler.TurnOf(cal, s, 1, 60, x, first, second).1 == Scheduler.Settled(Blocked(0))
  {
    hide Valid, Step, Scheduler.TurnOf;
    acts := [CREATE, ENABLE, RUN, CLAIM, DISABLE];
    EmptyIsValid();
    ReachesClaimed(cal);
    Disabling(cal);
    ThenStep(cal, EMPTY, [CREATE, ENABLE, RUN, CLAIM], DISABLE);
    assert [CREATE, ENABLE, RUN, CLAIM] + [DISABLE] == acts;
    x := Scheduler.Readings(30, Some(0), 30, None, 30, None, []);
    Scheduler.HeldUpExactly(cal, Reached(cal, acts), 1, 60, x, first, second, 0);
  }

  /** A job is archived as its lease runs out, and the next claim sweeps it into the error state. */
  lemma ArchivedThenErrored(cal: Calendar) returns (acts: seq<Action>)
    ensures var s, t := Reached(cal, acts), Reached(cal, acts + [SWEEP]);
            && |s.jobs| == |s.runtimes| == 1 && s.jobs[0].archived && s.runtimes[0].actual == Archived
            && |t.jobs| == |t.runtimes| == 1 && t.jobs[0].archived && t.runtimes[0].actual == Errored
  {
    hide Valid;
    acts := [CREATE, ENABLE, RUN, CLAIM, DISABLE, ARCHIVE];
    EmptyIsValid();
    ReachesArchived(cal);
    ThenStep(cal, EMPTY, acts, SWEEP);
    Archiving(cal);
    SweepWakes(cal, ARCHIVED, 1, 60, 60, None, [], 0);
    StepAdvances(cal, Reached(cal, acts), SWEEP);
    assert Sweep(ARCHIVED, 60, 0).jobs == ARCHIVED.jobs;
  }
}

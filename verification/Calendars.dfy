/** The clock policy of the store made of daily windows: what the search for the next active time means for
the times the store keeps and the runs it starts. */
module Calendars {
  import opened Options
  import opened Tables
  import opened Steps
  import opened Invariants
  import opened Preservation
  import opened Histories
  import opened ActiveWindow

  type Zones = string -> OneJump

  /** A window as normalisation lets it into a schedule. */
  predicate Storable(w: Window) {
    w.Daily? ==> w.start < DAY && w.end < DAY && w.start != w.end
  }

  predicate Inside(zones: Zones, schedule: Schedule, t: Time) {
    Storable(schedule.window) ==> InWindow(zones(schedule.zone), schedule.window, t)
  }

  ghost function NextInside(zones: Zones, schedule: Schedule, at: Time): (t: Time)
    ensures at <= t && Inside(zones, schedule, t)
  {
    if Storable(schedule.window) then NextTime(zones(schedule.zone), schedule.window, at) else at
  }

  ghost function CalendarOf(zones: Zones): Calendar {
    Calendar((t, schedule) => Inside(zones, schedule, t), (t, schedule) => NextInside(zones, schedule, t))
  }

  // ----- The invariant

  /** The time a job in sync waits for lies inside its window. */
  predicate RowTimed(zones: Zones, job: Job, rt: Runtime) {
    rt.applied == job.revision && rt.nextRun.Some? ==> Inside(zones, job.schedule, rt.nextRun.value)
  }

  /** Only operators leave runs waiting for a claim: a scheduled run is claimed as it is made. */
  ghost predicate ManualQueue(runs: seq<Run>) {
    forall i | 0 <= i < |runs| && runs[i].status == Queued :: runs[i].trigger.Manual?
  }

  ghost predicate RowsTimed(zones: Zones, s: State)
    requires Shaped(s)
  {
    forall j | 0 <= j < |s.jobs| :: RowTimed(zones, s.jobs[j], s.runtimes[j])
  }

  ghost predicate Timed(zones: Zones, s: State)
    requires Shaped(s)
  {
    RowsTimed(zones, s) && ManualQueue(s.runs)
  }

  lemma AppliedBehind(s: State)
    requires Shaped(s) && Agreed(s)
    ensures forall j | 0 <= j < |s.jobs| :: s.runtimes[j].applied <= s.jobs[j].revision
  {
    forall j | 0 <= j < |s.jobs| ensures s.runtimes[j].applied <= s.jobs[j].revision { assert JobAgrees(s, j); }
  }

  lemma MutateTimed(zones: Zones, s: State, request: Request, command: nat, c: Context)
    requires Shaped(s) && Timed(zones, s)
    requires forall j | 0 <= j < |s.jobs| :: s.runtimes[j].applied <= s.jobs[j].revision
    ensures var r := Mutate(s, request, command, c); r.Ok? && Shaped(r.state) ==> Timed(zones, r.state)
  {
    hide LiveTemplate, Droppable, Inside;
    match request.op {
      case CreateFromTemplate(_, _) =>
      case SetGlobalHold(_, _, _) =>
      case SetEnabled(job, _) =>
      case SetSchedule(job, _) =>
      case RunNow(job) =>
      case TestNotification(job) =>
      case Archive(job) =>
    }
  }

  lemma CommandTimed(zones: Zones, s: State, key: string, request: Request, c: Context)
    requires Valid(s) && Shaped(s) && Timed(zones, s) && Shaped(Kept(s, Execute(s, key, request, c)))
    ensures Timed(zones, Kept(s, Execute(s, key, request, c)))
  {
    hide Mutate, Inside, Granted, Alerted, KeysUnique, CommandsUnique, Answered, RunNows;
    AppliedBehind(s);
    MutateTimed(zones, s, request, |s.commands|, c);
  }

  lemma {:induction false} SweepTimed(zones: Zones, s: State, now: Time, j: nat)
    requires Shaped(s) && Timed(zones, s) && j <= |s.jobs|
    ensures Timed(zones, Sweep(s, now, j))
    decreases |s.jobs| - j
  {
    hide Inside;
    if j < |s.jobs| { SweepTimed(zones, if Expired(s.runtimes[j], now) then ExpireClaim(s, j, now) else s, now, j + 1); }
  }

  /** A job outside its window is put off into it; the one chosen is inside. */
  lemma {:induction false} DeferTimed(zones: Zones, s: State, now: Time, due: seq<nat>)
    requires Shaped(s) && Timed(zones, s) && forall i | 0 <= i < |due| :: due[i] < |s.jobs|
    ensures var (t, chosen) := Defer(CalendarOf(zones), s, now, due);
            Timed(zones, t) && (chosen.Some? ==> chosen.value < |s.jobs| && Inside(zones, s.jobs[chosen.value].schedule, now))
    decreases |due|
  {
    hide Inside;
    if due != [] && !CalendarOf(zones).active(now, s.jobs[due[0]].schedule) {
      var j := due[0];
      var rt := s.runtimes[j].(nextRun := Some(NextInside(zones, s.jobs[j].schedule, now)));
      DeferTimed(zones, s.(runtimes := s.runtimes[j := rt]), now, due[1..]);
    }
  }

  /** A scheduled run is made only inside the window of its job, and no other run is waiting as scheduled. */
  ghost predicate SelectedInside(zones: Zones, now: Time, s: State, r: Option<nat>)
    requires Shaped(s) && (r.Some? ==> r.value < |s.runs|)
  {
    && RowsTimed(zones, s)
    && (forall i | 0 <= i < |s.runs| && s.runs[i].status == Queued && Some(i) != r :: s.runs[i].trigger.Manual?)
    && (r.Some? && s.runs[r.value].trigger.Scheduled? && s.runs[r.value].status == Queued ==>
          Inside(zones, s.jobs[s.runs[r.value].job].schedule, now))
  }

  lemma MakesScheduled(zones: Zones, now: Time, s: State, j: nat)
    requires Shaped(s) && Timed(zones, s) && j < |s.jobs| && Inside(zones, s.jobs[j].schedule, now)
    ensures SelectedInside(zones, now, s.(runs := s.runs + [Run(j, Scheduled, Queued, now, None, 0, None)]), Some(|s.runs|))
  {
    hide Inside;
  }

  lemma SelectsTimed(zones: Zones, now: Time, s: State, r: Option<nat>)
    requires Shaped(s) && Timed(zones, s) && (r.Some? ==> r.value < |s.runs|)
    ensures SelectedInside(zones, now, s, r)
  {
    hide Inside;
  }

  lemma SelectTimed(zones: Zones, s: State, now: Time, pick: Option<nat>, due: seq<nat>)
    requires Shaped(s) && Timed(zones, s)
    ensures var (t, r) := SelectRun(CalendarOf(zones), s, now, pick, due); SelectedInside(zones, now, t, r)
  {
    hide Inside, Timed, SelectedInside, Sweep, Defer, CalendarOf;
    var s1 := Sweep(s, now, 0);
    SweepTimed(zones, s, now, 0);
    if FirstClaimable(s1, now, pick) && pick.Some? {
      SelectsTimed(zones, now, s1, pick);
    } else if FirstClaimable(s1, now, pick) && DueOrder(s1, now, due) {
      DeferTimed(zones, s1, now, due);
      var (s2, chosen) := Defer(CalendarOf(zones), s1, now, due);
      if chosen.Some? { MakesScheduled(zones, now, s2, chosen.value); } else { SelectsTimed(zones, now, s2, None); }
    } else {
      SelectsTimed(zones, now, s1, None);
    }
  }

  lemma ClaimTimed(zones: Zones, s: State, owner: Owner, seconds: int, now: Time, pick: Option<nat>, due: seq<nat>)
    requires Shaped(s) && Timed(zones, s) && Shaped(ClaimRun(CalendarOf(zones), s, owner, seconds, now, pick, due).0)
    ensures Timed(zones, ClaimRun(CalendarOf(zones), s, owner, seconds, now, pick, due).0)
  {
    hide SelectRun, Inside;
    SelectTimed(zones, s, now, pick, due);
  }

  lemma StepTimed(zones: Zones, s: State, a: Action)
    requires Valid(s) && Shaped(s) && Timed(zones, s) && Shaped(Step(CalendarOf(zones), s, a))
    ensures Timed(zones, Step(CalendarOf(zones), s, a))
  {
    hide Valid, Execute, ClaimRun, Inside, OldestOutOfSync, FirstDeliverable;
    if a.DoCommand? { CommandTimed(zones, s, a.key, a.request, a.context); }
    if a.DoClaimRun? { ClaimTimed(zones, s, a.owner, a.seconds, a.now, a.pick, a.due); }
  }

  // ----- Histories

  lemma {:induction false} HistoryTimed(zones: Zones, s: State, acts: seq<Action>)
    requires Valid(s) && Shaped(s) && Timed(zones, s)
    ensures Shaped(History(CalendarOf(zones), s, acts)) && Timed(zones, History(CalendarOf(zones), s, acts))
    decreases |acts|
  {
    hide Valid, Timed, Step;
    if acts != [] {
      var cal := CalendarOf(zones);
      StepKeeps(cal, s, acts[0]);
      ShapedOf(Step(cal, s, acts[0]));
      StepTimed(zones, s, acts[0]);
      HistoryTimed(zones, Step(cal, s, acts[0]), acts[1..]);
    }
  }

  /** In every reachable state the time that a job in sync waits for lies inside its window. */
  lemma ReachableTimes(zones: Zones, acts: seq<Action>, j: nat)
    requires j < |Reached(CalendarOf(zones), acts).jobs|
    ensures var s := Reached(CalendarOf(zones), acts);
            j < |s.runtimes| && RowTimed(zones, s.jobs[j], s.runtimes[j])
  {
    hide Valid, Inside;
    EmptyIsValid();
    HistoryTimed(zones, EMPTY, acts);
  }

  /** And a scheduled run is granted only while the clock is inside the window of its job. */
  lemma ScheduledRunsInside(zones: Zones, acts: seq<Action>, owner: Owner, seconds: int, now: Time, pick: Option<nat>, due: seq<nat>)
    requires Shaped(Reached(CalendarOf(zones), acts))
    requires ClaimRun(CalendarOf(zones), Reached(CalendarOf(zones), acts), owner, seconds, now, pick, due).1.Some?
    ensures var (t, claim) := ClaimRun(CalendarOf(zones), Reached(CalendarOf(zones), acts), owner, seconds, now, pick, due);
            && claim.value.run < |t.runs| && claim.value.job < |t.jobs|
            && (t.runs[claim.value.run].trigger.Scheduled? ==> Inside(zones, t.jobs[claim.value.job].schedule, now))
  {
    hide Valid, Inside, SelectRun;
    EmptyIsValid();
    HistoryTimed(zones, EMPTY, acts);
    var s := Reached(CalendarOf(zones), acts);
    SelectTimed(zones, s, now, pick, due);
    SelectedQueued(CalendarOf(zones), s, now, pick, due);
  }

  lemma SelectedQueued(cal: Calendar, s: State, now: Time, pick: Option<nat>, due: seq<nat>)
    requires Shaped(s)
    ensures var (t, r) := SelectRun(cal, s, now, pick, due); r.Some? ==> t.runs[r.value].status == Queued
  {
    hide Sweep, Defer;
    var s1 := Sweep(s, now, 0);
    if pick.Some? && FirstClaimable(s1, now, pick) { assert Claimable(s1, now, pick.value); }
  }
}

/** What each transaction of the store leaves behind, row by row. */
module Outcomes {
  import opened Options
  import opened Tables
  import opened Steps

  /** The job can be commanded. */
  predicate Listed(s: State, j: nat) {
    j < |s.jobs| && !s.jobs[j].archived
  }

  /** No other job has changed in any table; the hold and the commands stay. */
  ghost predicate TouchesOnly(s: State, t: State, j: nat) {
    && |t.jobs| == |s.jobs| && |t.runtimes| == |s.runtimes|
    && (forall k | 0 <= k < |s.jobs| && k != j :: t.jobs[k] == s.jobs[k])
    && (forall k | 0 <= k < |s.runtimes| && k != j :: t.runtimes[k] == s.runtimes[k])
    && |s.runs| <= |t.runs| && |s.outbox| <= |t.outbox|
    && (forall i | 0 <= i < |s.runs| && s.runs[i].job != j :: t.runs[i] == s.runs[i])
    && (forall i | |s.runs| <= i < |t.runs| :: t.runs[i].job == j)
    && (forall o | 0 <= o < |s.outbox| && s.outbox[o].job != j :: t.outbox[o] == s.outbox[o])
    && (forall o | |s.outbox| <= o < |t.outbox| :: t.outbox[o].job == j)
    && (forall k: nat, name | k != j :: CursorOf(t, k, name) == CursorOf(s, k, name))
    && t.hold == s.hold && t.commands == s.commands
  }

  // ----- Commands on a job

  lemma RefusedExactly(s: State, j: nat, expected: int)
    ensures Refusal(s, j, expected).None? <==> Listed(s, j) && expected >= 1 && expected == s.jobs[j].revision
    ensures !Listed(s, j) ==> Refusal(s, j, expected) == Some("automation_job_not_found")
    ensures Listed(s, j) && expected < 1 ==> Refusal(s, j, expected) == Some("expected_revision_required")
    ensures Listed(s, j) && expected >= 1 && expected != s.jobs[j].revision ==> Refusal(s, j, expected) == Some("automation_revision_conflict")
  {
  }

  /** A template has one job at a time, with an interval from five minutes to a day for digests and to an
      hour for roles.  The new job is off, in sync and has never been claimed. */
  lemma Creates(s: State, template: Template, schedule: Schedule, now: Time)
    requires Shaped(s)
    ensures var r := CreateJob(s, template, schedule, now);
            var fits := 300 <= schedule.everySeconds && schedule.everySeconds <= (if template.CrmDigest? then 86400 else 3600);
            && (r.Ok? <==> fits && forall j | 0 <= j < |s.jobs| :: s.jobs[j].template != template || s.jobs[j].archived)
            && (r.Err? ==> r.code == if fits then "automation_singleton_exists" else "automation_schedule_out_of_range")
            && (r.Ok? ==>
                  && r.state == s.(jobs := r.state.jobs, runtimes := r.state.runtimes)
                  && |r.state.jobs| == |r.state.runtimes| == |s.jobs| + 1 && s.jobs <= r.state.jobs && s.runtimes <= r.state.runtimes
                  && r.value == Created(|s.jobs|)
                  && var job, rt := r.state.jobs[|s.jobs|], r.state.runtimes[|s.jobs|];
                     && job.template == template && job.schedule == schedule && !job.desiredOn && !job.archived && job.updatedAt == now
                     && job.revision == rt.applied == 1 && rt.actual == Disabled && rt.fence == 0
                     && rt.nextRun.None? && rt.lease.None? && rt.incident.None? && rt.errorCode.None?)
  {
  }

  /** Switching a job on leaves it out of sync; switching it off cancels what is queued and what is due, and
      has it stopping while its lease runs. */
  lemma Switches(s: State, j: nat, enabled: bool, expected: int, now: Time)
    requires Shaped(s)
    ensures var r := SetJobEnabled(s, j, enabled, expected, now);
            && (r.Ok? <==> Listed(s, j) && expected >= 1 && expected == s.jobs[j].revision)
            && (r.Ok? && s.jobs[j].desiredOn == enabled ==> r.state == s && r.value == Changed(false))
            && (r.Ok? && s.jobs[j].desiredOn != enabled ==>
                  && TouchesOnly(s, r.state, j) && r.value == Changed(true) && r.state.outbox == s.outbox && r.state.incidents == s.incidents
                  && r.state.cursors == s.cursors && |r.state.runs| == |s.runs|
                  && var job, rt, rt' := r.state.jobs[j], s.runtimes[j], r.state.runtimes[j];
                     && job.desiredOn == enabled && job.revision == s.jobs[j].revision + 1 && job.updatedAt == now
                     && job.schedule == s.jobs[j].schedule && job.template == s.jobs[j].template && !job.archived
                     && (enabled ==> r.state.runtimes == s.runtimes && r.state.runs == s.runs)
                     && (!enabled ==>
                           && rt'.nextRun.None? && rt'.lease == rt.lease && rt'.fence == rt.fence && rt'.applied == rt.applied
                           && rt'.incident == rt.incident && rt'.errorCode == rt.errorCode
                           && rt'.actual == (if rt.lease.Some? && now < rt.lease.value.until then Stopping else rt.actual)
                           && CancelsQueued(s, r.state, j)))
  {
  }

  /** Of the runs of the job exactly those still queued are cancelled. */
  ghost predicate CancelsQueued(s: State, t: State, j: nat) {
    && |t.runs| == |s.runs|
    && forall i | 0 <= i < |s.runs| ::
         if s.runs[i].job == j && s.runs[i].status == Queued
         then t.runs[i].status == Cancelled && t.runs[i].result.Some? && t.runs[i].(status := Queued, result := s.runs[i].result) == s.runs[i]
         else t.runs[i] == s.runs[i]
  }

  /** A new schedule within the bounds of the template is a new revision; an equal one is none. */
  lemma Reschedules(s: State, j: nat, schedule: Schedule, expected: int, now: Time)
    requires Shaped(s)
    ensures var r := SetJobSchedule(s, j, schedule, expected, now);
            && (r.Ok? <==> Listed(s, j) && expected >= 1 && expected == s.jobs[j].revision
                           && 300 <= schedule.everySeconds <= (if s.jobs[j].template.CrmDigest? then 86400 else 3600))
            && (r.Ok? && s.jobs[j].schedule == schedule ==> r.state == s && r.value == Changed(false))
            && (r.Ok? && s.jobs[j].schedule != schedule ==>
                  && r.state == s.(jobs := r.state.jobs) && TouchesOnly(s, r.state, j) && r.value == Changed(true)
                  && var job := r.state.jobs[j];
                     && job.schedule == schedule && job.revision == s.jobs[j].revision + 1 && job.updatedAt == now
                     && job.desiredOn == s.jobs[j].desiredOn && job.template == s.jobs[j].template && !job.archived)
  {
  }

  /** A run covers a request when it is still queued, or was claimed at the present revision under a lease
      that runs. */
  predicate Serves(s: State, j: nat, now: Time, i: nat)
    requires Shaped(s) && j < |s.jobs| && i < |s.runs|
  {
    var run, rt := s.runs[i], s.runtimes[j];
    && run.job == j
    && (|| run.status == Queued
        || (&& run.status == Active && run.grant.Some? && run.grant.value.revision == s.jobs[j].revision
            && rt.lease.Some? && now < rt.lease.value.until
            && rt.lease.value.owner == run.grant.value.owner && rt.fence == run.grant.value.fence))
  }

  /** A request is counted on the oldest run that covers it; when none does, one manual run is queued for it
      and the job waits. */
  lemma Enqueues(s: State, j: nat, command: nat, expected: int, now: Time, pick: Option<nat>)
    requires Shaped(s)
    ensures var r := EnqueueRun(s, j, command, expected, now, pick);
            r.Ok? ==>
              && Listed(s, j) && expected == s.jobs[j].revision && s.jobs[j].desiredOn
              && TouchesOnly(s, r.state, j) && r.state.jobs == s.jobs && r.state.outbox == s.outbox && r.state.cursors == s.cursors
              && r.state.incidents == s.incidents
              && (pick.None? ==>
                    && (forall i | 0 <= i < |s.runs| :: !Serves(s, j, now, i))
                    && r.value == Enqueued(|s.runs|, false) && |r.state.runs| == |s.runs| + 1 && s.runs <= r.state.runs
                    && r.state.runs[|s.runs|] == Run(j, Manual(command), Queued, now, None, 0, None)
                    && r.state.runtimes[j] == s.runtimes[j].(actual := Waiting))
              && (pick.Some? ==>
                    && pick.value < |s.runs| && Serves(s, j, now, pick.value)
                    && (forall i | 0 <= i < |s.runs| && Serves(s, j, now, i) :: s.runs[pick.value].requestedAt <= s.runs[i].requestedAt)
                    && r.value == Enqueued(pick.value, true) && |r.state.runs| == |s.runs| && r.state.runtimes == s.runtimes
                    && (forall i | 0 <= i < |s.runs| && i != pick.value :: r.state.runs[i] == s.runs[i])
                    && r.state.runs[pick.value].coalesced == s.runs[pick.value].coalesced + 1
                    && r.state.runs[pick.value].(coalesced := s.runs[pick.value].coalesced) == s.runs[pick.value])
    ensures Listed(s, j) && expected >= 1 && expected == s.jobs[j].revision && !s.jobs[j].desiredOn ==>
              EnqueueRun(s, j, command, expected, now, pick) == Err("automation_not_enabled")
    ensures Listed(s, j) && expected >= 1 && expected == s.jobs[j].revision && s.jobs[j].desiredOn && FirstCovering(s, j, now, pick) ==>
              EnqueueRun(s, j, command, expected, now, pick).Ok?
  {
    assert forall i | 0 <= i < |s.runs| && j < |s.jobs| :: Serves(s, j, now, i) == Covers(s, j, now, i);
  }

  /** A new intent: pending, never attempted, due at once and claimed by nobody. */
  predicate NewIntent(row: OutboxRow, j: nat, now: Time) {
    && row.job == j && row.status == Pending && row.attempts == 0 && row.fence == 0
    && row.nextAttempt == row.createdAt == now && row.lease.None? && row.result.None?
  }

  lemma Tests(s: State, j: nat, command: nat, expected: int, now: Time)
    requires Shaped(s)
    ensures var r := EnqueueTest(s, j, command, expected, now);
            && (r.Ok? <==> Listed(s, j) && expected >= 1 && expected == s.jobs[j].revision)
            && (r.Ok? ==>
                  && r.state == s.(outbox := r.state.outbox) && |r.state.outbox| == |s.outbox| + 1 && s.outbox <= r.state.outbox
                  && r.value == TestQueued(|s.outbox|)
                  && var row := r.state.outbox[|s.outbox|]; NewIntent(row, j, now) && row.notice == TestNotice(command) && row.run.None?)
  {
  }

  /** An alert of the job that may be given up: not a test, not delivered, and under no lease that runs. */
  predicate GivenUp(row: OutboxRow, j: nat, now: Time) {
    && row.job == j && !row.notice.TestNotice? && (row.status == Pending || row.status == Undelivered)
    && (row.lease.Some? ==> row.lease.value.until <= now)
  }

  /** An archive is accepted for a job that is off, under no lease that runs at its first reading of the
      clock, and with nothing left to deliver but alerts it may give up. */
  lemma Archives(s: State, j: nat, expected: int, checked: Time, now: Time)
    requires Shaped(s)
    ensures var r := ArchiveJob(s, j, expected, checked, now);
            && (r.Ok? <==>
                  && Listed(s, j) && expected >= 1 && expected == s.jobs[j].revision && !s.jobs[j].desiredOn
                  && (s.runtimes[j].lease.Some? ==> s.runtimes[j].lease.value.until <= checked)
                  && forall o | 0 <= o < |s.outbox| && s.outbox[o].job == j && s.outbox[o].status in {Pending, Undelivered, InTransit} ::
                       GivenUp(s.outbox[o], j, now))
            && (r.Ok? ==>
                  && TouchesOnly(s, r.state, j) && r.state.cursors == s.cursors && r.state.incidents == s.incidents
                  && r.value == JobArchived(s.jobs[j].revision + 1)
                  && r.state.jobs[j] == s.jobs[j].(archived := true, revision := s.jobs[j].revision + 1, updatedAt := now)
                  && CancelsQueued(s, r.state, j)
                  && |r.state.outbox| == |s.outbox|
                  && (forall o | 0 <= o < |s.outbox| ::
                        if GivenUp(s.outbox[o], j, now)
                        then r.state.outbox[o].status == Dropped && r.state.outbox[o].lease.None?
                             && r.state.outbox[o].(status := s.outbox[o].status, lease := s.outbox[o].lease, result := s.outbox[o].result) == s.outbox[o]
                        else r.state.outbox[o] == s.outbox[o])
                  && var rt, rt' := s.runtimes[j], r.state.runtimes[j];
                     && rt'.actual == Archived && rt'.nextRun.None? && rt'.applied == s.jobs[j].revision + 1
                     && rt'.(actual := rt.actual, nextRun := rt.nextRun, applied := rt.applied) == rt)
  {
    var dropped := DropAlerts(s.outbox, j, now);
    forall o | 0 <= o < |s.outbox| ensures Droppable(s.outbox[o], j, now) == GivenUp(s.outbox[o], j, now) { }
    if AwaitsDelivery(dropped, j) {
      var o :| 0 <= o < |dropped| && dropped[o].job == j && dropped[o].status in {Pending, Undelivered, InTransit};
      assert s.outbox[o].job == j && !GivenUp(s.outbox[o], j, now);
    }
    forall o | 0 <= o < |s.outbox| && s.outbox[o].job == j && s.outbox[o].status in {Pending, Undelivered, InTransit}
      ensures GivenUp(s.outbox[o], j, now) || AwaitsDelivery(dropped, j)
    {
      if !GivenUp(s.outbox[o], j, now) { assert dropped[o] == s.outbox[o]; }
    }
  }

  // ----- The hold and the commands

  /** The same actor with the same attempt. */
  predicate OwnsHold(h: Hold, actor: Actor, attempt: Option<nat>) {
    h.owner == Some(actor) && h.attempt == attempt
  }

  /** A release hold names an attempt, others none, and clearing takes no reason.  A hold changes only at its
      present revision; a release hold only by its owner, and a hold is not taken over by repeating it. */
  predicate HoldAllowed(h: Hold, enabled: bool, reason: Option<HoldReason>, actor: Actor, attempt: Option<nat>, expected: int) {
    && expected == h.revision
    && (enabled && reason == Some(Release) ==> attempt.Some?)
    && (enabled && reason != Some(Release) ==> attempt.None?)
    && (!enabled ==> reason.None?)
    && (h.enabled && h.reason == Some(Release) ==> OwnsHold(h, actor, attempt))
    && (h.enabled && enabled && h.reason == reason ==> OwnsHold(h, actor, attempt))
  }

  /** The stored hold is on exactly when that was asked for, with the reason, and with owner and attempt
      exactly while it is on. */
  lemma Holds(s: State, enabled: bool, reason: Option<HoldReason>, actor: Actor, attempt: Option<nat>, expected: int)
    ensures var r := SetHold(s, enabled, reason, actor, attempt, expected);
            && (r.Ok? <==> HoldAllowed(s.hold, enabled, reason, actor, attempt, expected))
            && (r.Ok? ==>
                  && r.state == s.(hold := r.state.hold)
                  && r.state.hold.enabled == enabled && r.state.hold.reason == reason
                  && r.value == HoldSet(!(s.hold.enabled == enabled && s.hold.reason == reason), r.state.hold.revision)
                  && (s.hold.enabled == enabled && s.hold.reason == reason ==> r.state == s)
                  && (!(s.hold.enabled == enabled && s.hold.reason == reason) ==>
                        && r.state.hold.revision == s.hold.revision + 1
                        && r.state.hold.owner == (if enabled then Some(actor) else None)
                        && r.state.hold.attempt == (if enabled then attempt else None)))
  {
  }

  /** Under a hold only creation and the hold itself go through; other commands need a listed digest job,
      and switching on needs its dependencies. */
  lemma Dispatches(s: State, request: Request, command: nat, c: Context)
    requires Shaped(s)
    ensures var r, op := Mutate(s, request, command, c), request.op;
            var onJob := !op.CreateFromTemplate? && !op.SetGlobalHold?;
            && (op.CreateFromTemplate? ==> r == CreateJob(s, op.template, op.schedule, c.now))
            && (op.SetGlobalHold? ==> r == SetHold(s, op.enabled, op.reason, request.actor, op.attempt, request.expected))
            && (onJob && s.hold.enabled ==> r == Err("automation_global_hold"))
            && (onJob && !s.hold.enabled && !Listed(s, op.job) ==> r == Err("automation_job_not_found"))
            && (onJob && !s.hold.enabled && Listed(s, op.job) && !s.jobs[op.job].template.CrmDigest? ==> r == Err("automation_role_control_required"))
            && (onJob && !s.hold.enabled && Listed(s, op.job) && s.jobs[op.job].template.CrmDigest? ==>
                  && (op.SetEnabled? ==> r == if op.enabled && !c.ready then Err("automation_not_ready")
                                              else SetJobEnabled(s, op.job, op.enabled, request.expected, c.now))
                  && (op.SetSchedule? ==> r == SetJobSchedule(s, op.job, op.schedule, request.expected, c.now))
                  && (op.RunNow? ==> r == EnqueueRun(s, op.job, command, request.expected, c.now, c.pick))
                  && (op.TestNotification? ==> r == EnqueueTest(s, op.job, command, request.expected, c.now))
                  && (op.Archive? ==> r == ArchiveJob(s, op.job, request.expected, c.checked, c.now)))
  {
    hide SetJobEnabled, SetJobSchedule, EnqueueRun, EnqueueTest, ArchiveJob, CreateJob, SetHold;
  }

  /** The hold belongs to the system; a new command is recorded with its response, after its mutation. */
  lemma Records(s: State, key: string, request: Request, c: Context)
    requires Shaped(s)
    ensures var r := Execute(s, key, request, c);
            && (request.op.SetGlobalHold? && request.actor.kind != System ==> r == Err("automation_permission_denied"))
            && (!(request.op.SetGlobalHold? && request.actor.kind != System)
                && (forall i | 0 <= i < |s.commands| :: !(s.commands[i].source == request.actor.kind && s.commands[i].key == key)) ==>
                  var m := Mutate(s, request, |s.commands|, c);
                  && (m.Err? ==> r == Err(m.code))
                  && (m.Ok? ==> r == Ok(m.state.(commands := s.commands + [Command(request.actor.kind, key, request, m.value)]), m.value)))
  {
    hide Mutate;
    assert forall i | 0 <= i < |s.commands| :: Named(s.commands[i], request.actor.kind, key)
                                               == (s.commands[i].source == request.actor.kind && s.commands[i].key == key);
  }

  // ----- Reconciliation

  /** A clock policy that never answers with an earlier time. */
  ghost predicate Prompt(cal: Calendar) {
    forall t, schedule :: t <= cal.next(t, schedule)
  }

  /** The job has waited longest of those whose revision is not applied. */
  ghost predicate LongestOut(s: State, j: nat)
    requires Shaped(s)
  {
    && Listed(s, j) && s.jobs[j].revision != s.runtimes[j].applied
    && forall k | 0 <= k < |s.jobs| && !s.jobs[k].archived && s.jobs[k].revision != s.runtimes[k].applied :: s.jobs[j].updatedAt <= s.jobs[k].updatedAt
  }

  /** A reconciled job is in sync; one that is on is idle, or in error while its incident is open, and next
      due an interval later at the earliest; one that is off is disabled, due never, with nothing queued. */
  lemma Reconciles(cal: Calendar, s: State, now: Time, j: nat)
    requires Shaped(s) && !s.hold.enabled && LongestOut(s, j)
    ensures OldestOutOfSync(s, Some(j))
    ensures var (t, r) := Reconcile(cal, s, now, Some(j));
            var job, rt := s.jobs[j], s.runtimes[j];
            var leased := rt.lease.Some? && now < rt.lease.value.until;
            && TouchesOnly(s, t, j) && t.jobs == s.jobs && t.outbox == s.outbox && t.cursors == s.cursors && t.incidents == s.incidents
            && r == (if leased then Blocked(j) else Applied(j))
            && t.runtimes[j].lease == rt.lease && t.runtimes[j].fence == rt.fence && t.runtimes[j].incident == rt.incident
            && t.runtimes[j].errorCode == rt.errorCode
            && (leased && job.desiredOn ==> t == s)
            && (leased && !job.desiredOn ==>
                  t.runtimes[j].actual == Stopping && t.runtimes[j].nextRun.None? && t.runtimes[j].applied == rt.applied && t.runs == s.runs)
            && (!leased ==> t.runtimes[j].applied == job.revision)
            && (!leased && job.desiredOn ==>
                  && t.runs == s.runs && t.runtimes[j].actual == (if rt.incident.Some? then Errored else Idle)
                  && t.runtimes[j].nextRun == Some(cal.next(now + job.schedule.everySeconds, job.schedule))
                  && (Prompt(cal) ==> now + job.schedule.everySeconds <= t.runtimes[j].nextRun.value))
            && (!leased && !job.desiredOn ==>
                  t.runtimes[j].actual == Disabled && t.runtimes[j].nextRun.None? && CancelsQueued(s, t, j))
  {
  }

  /** What a query says of the jobs out of sync is exact. */
  lemma OldestMeans(s: State, pick: Option<nat>)
    requires Shaped(s)
    ensures OldestOutOfSync(s, pick) <==>
              match pick
              case Some(j) => LongestOut(s, j)
              case None => forall k | 0 <= k < |s.jobs| :: s.jobs[k].archived || s.jobs[k].revision == s.runtimes[k].applied
  {
    forall k | 0 <= k < |s.jobs| ensures OutOfSync(s, k) == (!s.jobs[k].archived && s.jobs[k].revision != s.runtimes[k].applied) { }
  }

  // ----- Claims

  /** An expired claim fails its run and leaves the job in error with one incident open and no lease; an
      alert is queued exactly when the incident is new. */
  lemma Expires(s: State, j: nat, now: Time)
    requires Shaped(s) && j < |s.jobs|
    ensures var t, rt, rt' := ExpireClaim(s, j, now), s.runtimes[j], ExpireClaim(s, j, now).runtimes[j];
            && TouchesOnly(s, t, j) && t.jobs == s.jobs && t.cursors == s.cursors && |t.runs| == |s.runs|
            && (forall i | 0 <= i < |s.runs| ::
                  if s.runs[i].job == j && s.runs[i].status == Active && s.runs[i].grant.Some? && s.runs[i].grant.value.fence == rt.fence
                  then t.runs[i].status == Failed && t.runs[i].result == Some("automation_lease_expired")
                       && t.runs[i].(status := Active, result := s.runs[i].result) == s.runs[i]
                  else t.runs[i] == s.runs[i])
            && rt'.actual == Errored && rt'.lease.None? && rt'.errorCode == Some("automation_lease_expired") && rt'.incident.Some?
            && rt'.nextRun == rt.nextRun && rt'.fence == rt.fence && rt'.applied == rt.applied
            && (rt.incident.Some? ==> rt'.incident == rt.incident && t.outbox == s.outbox && t.incidents == s.incidents)
            && (rt.incident.None? ==>
                  && t.incidents == s.incidents + 1 && rt'.incident.value.id == s.incidents
                  && |t.outbox| == |s.outbox| + 1 && s.outbox <= t.outbox && NewIntent(t.outbox[|s.outbox|], j, now)
                  && t.outbox[|s.outbox|].notice == ErrorAlert(s.incidents, "automation_lease_expired"))
  {
  }

  /** The sweep expires exactly the claims whose lease has run out at `now`. */
  lemma {:induction false} SweepsExactly(s: State, now: Time, i: nat, j: nat)
    requires Shaped(s) && i <= |s.jobs| && j < |s.jobs|
    ensures var t := Sweep(s, now, i);
            if i <= j && s.runtimes[j].lease.Some? && s.runtimes[j].lease.value.until <= now
            then t.runtimes[j].lease.None? && t.runtimes[j].actual == Errored && t.runtimes[j].incident.Some?
            else t.runtimes[j] == s.runtimes[j]
    decreases |s.jobs| - i
  {
    if i < |s.jobs| { SweepsExactly(if Expired(s.runtimes[i], now) then ExpireClaim(s, i, now) else s, now, i + 1, j); }
  }

  /** A granted run is active under the next token of its job and the present revision; its lease lasts as
      long as asked for. */
  lemma Grants(s: State, i: nat, owner: Owner, until: Time)
    requires Shaped(s) && i < |s.runs|
    ensures var (t, claim) := GrantRun(s, i, owner, until);
            var j := s.runs[i].job;
            var rt, rt' := s.runtimes[j], t.runtimes[j];
            && t == s.(runtimes := t.runtimes, runs := t.runs) && TouchesOnly(s, t, j) && |t.runs| == |s.runs|
            && claim == Claim(i, j, owner, s.jobs[j].revision, rt.fence + 1)
            && (forall k | 0 <= k < |s.runs| && k != i :: t.runs[k] == s.runs[k])
            && t.runs[i] == s.runs[i].(status := Active, grant := Some(Grant(owner, rt.fence + 1, s.jobs[j].revision)))
            && rt'.actual == Running && rt'.lease == Some(Lease(owner, until)) && rt'.fence == rt.fence + 1 && rt'.errorCode.None?
            && rt'.nextRun == rt.nextRun && rt'.applied == rt.applied && rt'.incident == rt.incident
  {
  }

  /** A run may be claimed while it is queued for a listed job that is on and under no lease that runs. */
  predicate MayClaim(s: State, now: Time, i: nat)
    requires Shaped(s) && i < |s.runs|
  {
    var j := s.runs[i].job;
    && s.runs[i].status == Queued && Listed(s, j) && s.jobs[j].desiredOn
    && (s.runtimes[j].lease.Some? ==> s.runtimes[j].lease.value.until <= now)
  }

  /** A schedule is due for a listed job that is on, in sync, waiting for a time that has come, and under no
      lease that runs. */
  predicate FallsDue(s: State, now: Time, j: nat)
    requires Shaped(s) && j < |s.jobs|
  {
    var rt := s.runtimes[j];
    && Listed(s, j) && s.jobs[j].desiredOn && rt.applied == s.jobs[j].revision
    && rt.nextRun.Some? && rt.nextRun.value <= now
    && (rt.lease.Some? ==> rt.lease.value.until <= now)
  }

  /** After the sweep a claim takes the oldest queued run it may.  Without one it starts the first due job
      inside its window, and puts off the due jobs it passed over; without such a job it takes none. */
  lemma ClaimsExactly(cal: Calendar, s: State, owner: Owner, seconds: int, now: Time, pick: Option<nat>, due: seq<nat>)
    requires Shaped(s) && !s.hold.enabled && 10 <= seconds <= 600
    ensures var s1 := Sweep(s, now, 0);
            var (t, claim) := ClaimRun(cal, s, owner, seconds, now, pick, due);
            && (pick.Some? && FirstClaimable(s1, now, pick) ==>
                  && pick.value < |s1.runs| && MayClaim(s1, now, pick.value)
                  && (forall i | 0 <= i < |s1.runs| && MayClaim(s1, now, i) :: s1.runs[pick.value].requestedAt <= s1.runs[i].requestedAt)
                  && claim.Some? && claim.value.run == pick.value && (t, claim.value) == GrantRun(s1, pick.value, owner, now + seconds))
            && (pick.None? && FirstClaimable(s1, now, pick) && DueOrder(s1, now, due) ==>
                  && (forall i | 0 <= i < |s1.runs| :: !MayClaim(s1, now, i))
                  && (claim.None? <==> forall n | 0 <= n < |due| :: !cal.active(now, s1.jobs[due[n]].schedule))
                  && (claim.None? ==> t == Defer(cal, s1, now, due).0)
                  && (claim.Some? ==>
                        && claim.value.run == |s1.runs| && FallsDue(s1, now, claim.value.job)
                        && cal.active(now, s1.jobs[claim.value.job].schedule)
                        && |t.runs| == |s1.runs| + 1 && t.runs[|s1.runs|].trigger == Scheduled && t.runs[|s1.runs|].requestedAt == now
                        && t.runtimes[claim.value.job].lease == Some(Lease(owner, now + seconds))))
  {
    hide Sweep;
    var s1 := Sweep(s, now, 0);
    forall i | 0 <= i < |s1.runs| ensures Claimable(s1, now, i) == MayClaim(s1, now, i) { }
    forall j | 0 <= j < |s1.jobs| ensures Due(s1, now, j) == FallsDue(s1, now, j) { }
    if pick.None? && FirstClaimable(s1, now, pick) && DueOrder(s1, now, due) { DefersExactly(cal, s1, now, due); }
  }

  /** Nothing is claimed under a hold, or for a lease of less than ten seconds or more than ten minutes. */
  lemma ClaimsRefused(cal: Calendar, s: State, owner: Owner, seconds: int, now: Time, pick: Option<nat>, due: seq<nat>)
    requires Shaped(s) && (s.hold.enabled || seconds < 10 || seconds > 600)
    ensures ClaimRun(cal, s, owner, seconds, now, pick, due) == (s, None) && ClaimOutbox(s, owner, seconds, now, pick) == (s, None)
  {
  }

  /** The first due job inside its window is chosen; those before it are put off to the next time the
      calendar gives, and no other row changes. */
  lemma {:induction false} DefersExactly(cal: Calendar, s: State, now: Time, due: seq<nat>)
    requires Shaped(s) && (forall n | 0 <= n < |due| :: due[n] < |s.jobs|)
    requires forall n, k | 0 <= n < k < |due| :: due[n] != due[k]
    ensures var (t, chosen) := Defer(cal, s, now, due);
            && (chosen.None? <==> forall n | 0 <= n < |due| :: !cal.active(now, s.jobs[due[n]].schedule))
            && (chosen.Some? ==> exists n :: 0 <= n < |due| && ChosenAt(cal, s, now, due, n) && due[n] == chosen.value)
            && t == s.(runtimes := t.runtimes) && |t.runtimes| == |s.runtimes|
            && (forall n | 0 <= n < |due| && PassedOver(cal, s, now, due, n) ::
                  t.runtimes[due[n]] == s.runtimes[due[n]].(nextRun := Some(cal.next(now, s.jobs[due[n]].schedule))))
            && (forall j | 0 <= j < |s.jobs| && (forall n | 0 <= n < |due| :: due[n] == j ==> !PassedOver(cal, s, now, due, n)) ::
                  t.runtimes[j] == s.runtimes[j])
    decreases |due|
  {
    if due != [] {
      var j := due[0];
      if cal.active(now, s.jobs[j].schedule) {
        assert ChosenAt(cal, s, now, due, 0);
      } else {
        var u := s.(runtimes := s.runtimes[j := s.runtimes[j].(nextRun := Some(cal.next(now, s.jobs[j].schedule)))]);
        DefersExactly(cal, u, now, due[1..]);
        DefersRest(cal, s, u, now, due);
      }
    }
  }

  /** Every due job before the place is outside its window. */
  predicate OutsideBefore(cal: Calendar, s: State, now: Time, due: seq<nat>, n: int)
    requires forall k | 0 <= k < |due| :: due[k] < |s.jobs|
  {
    0 <= n <= |due| && forall k | 0 <= k < n :: !cal.active(now, s.jobs[due[k]].schedule)
  }

  predicate ChosenAt(cal: Calendar, s: State, now: Time, due: seq<nat>, n: int)
    requires forall k | 0 <= k < |due| :: due[k] < |s.jobs|
  {
    n < |due| && OutsideBefore(cal, s, now, due, n) && cal.active(now, s.jobs[due[n]].schedule)
  }

  predicate PassedOver(cal: Calendar, s: State, now: Time, due: seq<nat>, n: int)
    requires forall k | 0 <= k < |due| :: due[k] < |s.jobs|
  {
    n < |due| && OutsideBefore(cal, s, now, due, n + 1)
  }

  lemma DefersRest(cal: Calendar, s: State, u: State, now: Time, due: seq<nat>)
    requires due != [] && u.jobs == s.jobs && (forall n | 0 <= n < |due| :: due[n] < |s.jobs|)
    requires !cal.active(now, s.jobs[due[0]].schedule)
    ensures forall n | 1 <= n < |due| :: ChosenAt(cal, s, now, due, n) == ChosenAt(cal, u, now, due[1..], n - 1)
    ensures forall n | 1 <= n < |due| :: PassedOver(cal, s, now, due, n) == PassedOver(cal, u, now, due[1..], n - 1)
    ensures PassedOver(cal, s, now, due, 0) && !ChosenAt(cal, s, now, due, 0)
  {
    forall n | 0 <= n <= |due| - 1 ensures OutsideBefore(cal, s, now, due, n + 1) == OutsideBefore(cal, u, now, due[1..], n) {
      if OutsideBefore(cal, u, now, due[1..], n) {
        forall k | 0 <= k < n + 1 ensures !cal.active(now, s.jobs[due[k]].schedule) {
          if k > 0 { assert due[1..][k - 1] == due[k]; }
        }
      }
      if OutsideBefore(cal, s, now, due, n + 1) {
        forall k | 0 <= k < n ensures !cal.active(now, u.jobs[due[1..][k]].schedule) { assert due[1..][k] == due[k + 1]; }
      }
    }
  }

  /** The due jobs are listed once each, the earliest first; of more than a hundred the latest are left out. */
  lemma DueMeans(s: State, now: Time, due: seq<nat>)
    requires Shaped(s) && DueOrder(s, now, due)
    ensures |due| <= 100
    ensures forall n | 0 <= n < |due| :: due[n] < |s.jobs| && FallsDue(s, now, due[n])
    ensures forall n, k | 0 <= n < k < |due| :: due[n] != due[k] && s.runtimes[due[n]].nextRun.value <= s.runtimes[due[k]].nextRun.value
    ensures forall j | 0 <= j < |s.jobs| && FallsDue(s, now, j) && j !in due ::
              |due| == 100 && forall n | 0 <= n < |due| :: s.runtimes[due[n]].nextRun.value <= s.runtimes[j].nextRun.value
  {
    forall j | 0 <= j < |s.jobs| ensures Due(s, now, j) == FallsDue(s, now, j) { }
  }

  // ----- The end of a run

  /** The run is active under a claim of this owner and token, and the job is still held under it. */
  predicate HeldClaim(s: State, j: nat, i: nat, owner: Owner, token: nat)
    requires Shaped(s)
  {
    && j < |s.jobs| && i < |s.runs|
    && s.runtimes[j].lease.Some? && s.runtimes[j].lease.value.owner == owner && s.runtimes[j].fence == token
    && s.runs[i].job == j && s.runs[i].status == Active
    && s.runs[i].grant.Some? && s.runs[i].grant.value.owner == owner && s.runs[i].grant.value.fence == token
  }

  /** A job that is on waits for its next time, an interval away at the earliest, one that is off for none. */
  ghost predicate WaitsAfter(cal: Calendar, job: Job, rt: Runtime, now: Time, wait: int) {
    && (job.desiredOn ==> rt.nextRun == Some(cal.next(now + wait, job.schedule)) && (Prompt(cal) ==> now + wait <= rt.nextRun.value))
    && (!job.desiredOn ==> rt.nextRun.None?)
  }

  /** Only its own run and job change when a claim ends; the lease is gone and the revision applied. */
  ghost predicate EndsClaim(s: State, t: State, j: nat, i: nat)
    requires Shaped(s)
  {
    && TouchesOnly(s, t, j) && t.jobs == s.jobs && t.cursors == s.cursors
    && j < |s.jobs| && |t.runs| == |s.runs| && i < |s.runs| && (forall k | 0 <= k < |s.runs| && k != i :: t.runs[k] == s.runs[k])
    && t.runs[i].(status := s.runs[i].status, result := s.runs[i].result) == s.runs[i]
    && t.runtimes[j].lease.None? && t.runtimes[j].fence == s.runtimes[j].fence && t.runtimes[j].applied == s.jobs[j].revision
  }

  /** A finished run has succeeded exactly when its caller says so.  Its job is in error, with an error code and
      an incident, exactly when it failed; it waits for the requested delay, or else for its interval. */
  lemma Finishes(cal: Calendar, s: State, j: nat, i: nat, owner: Owner, token: nat, succeeded: bool, code: Code, delay: Option<int>, now: Time)
    requires Shaped(s)
    ensures var (t, done) := FinishRun(cal, s, j, i, owner, token, succeeded, code, delay, now);
            && (done <==> HeldClaim(s, j, i, owner, token) && (delay.Some? ==> 5 <= delay.value <= 86400))
            && (!done ==> t == s)
            && (done ==>
                  && EndsClaim(s, t, j, i) && t.runs[i].result == Some(code)
                  && t.runs[i].status == (if succeeded then Succeeded else Failed)
                  && WaitsAfter(cal, s.jobs[j], t.runtimes[j], now, if delay.Some? then delay.value else s.jobs[j].schedule.everySeconds)
                  && var rt := t.runtimes[j];
                     && (rt.actual == Errored <==> !succeeded) && rt.errorCode == (if succeeded then None else Some(code))
                     && (succeeded ==> rt.incident.None? && rt.actual == (if s.jobs[j].desiredOn then Idle else Disabled))
                     && (!succeeded ==> rt.incident == if s.runtimes[j].incident.Some? then s.runtimes[j].incident else Some(Incident(s.incidents, code))))
  {
  }

  /** It queues an alert when it opens an incident, and one when it closes it, and none otherwise. */
  lemma FinishAlerts(cal: Calendar, s: State, j: nat, i: nat, owner: Owner, token: nat, succeeded: bool, code: Code, delay: Option<int>, now: Time)
    requires Shaped(s) && FinishRun(cal, s, j, i, owner, token, succeeded, code, delay, now).1
    ensures j < |s.jobs|
    ensures var t, open := FinishRun(cal, s, j, i, owner, token, succeeded, code, delay, now).0, s.runtimes[j].incident;
            && s.outbox <= t.outbox
            && (succeeded == open.None? ==> t.outbox == s.outbox && t.incidents == s.incidents)
            && (succeeded != open.None? ==>
                  && |t.outbox| == |s.outbox| + 1
                  && var row := t.outbox[|s.outbox|];
                     && NewIntent(row, j, now) && row.run == Some(i)
                     && (succeeded ==> row.notice == RecoveryAlert(open.value.id, open.value.code) && t.incidents == s.incidents)
                     && (!succeeded ==> row.notice == ErrorAlert(s.incidents, code) && t.incidents == s.incidents + 1))
  {
  }

  /** A cancelled run settles its job: idle, or in error while an incident is open, or disabled. */
  lemma Cancels(cal: Calendar, s: State, j: nat, i: nat, owner: Owner, token: nat, code: Code, now: Time)
    requires Shaped(s)
    ensures var (t, done) := CancelRun(cal, s, j, i, owner, token, code, now);
            && (done <==> HeldClaim(s, j, i, owner, token))
            && (!done ==> t == s)
            && (done ==>
                  && EndsClaim(s, t, j, i) && t.runs[i].status == Cancelled && t.runs[i].result == Some(code)
                  && t.outbox == s.outbox && t.incidents == s.incidents
                  && WaitsAfter(cal, s.jobs[j], t.runtimes[j], now, s.jobs[j].schedule.everySeconds)
                  && var rt, rt' := s.runtimes[j], t.runtimes[j];
                     && rt'.actual == (if !s.jobs[j].desiredOn then Disabled else if rt.incident.Some? then Errored else Idle)
                     && rt'.incident == rt.incident && rt'.errorCode == rt.errorCode)
  {
  }

  /** The job is held by this owner under this token, and the lease runs. */
  predicate LeaseRuns(s: State, j: nat, owner: Owner, token: nat, now: Time)
    requires Shaped(s)
  {
    && j < |s.jobs| && s.runtimes[j].lease.Some? && s.runtimes[j].lease.value.owner == owner
    && s.runtimes[j].fence == token && now < s.runtimes[j].lease.value.until
  }

  /** A heartbeat of the holder gives a lease that runs its full length again, from now on. */
  lemma Beats(s: State, j: nat, i: nat, owner: Owner, token: nat, seconds: int, now: Time)
    requires Shaped(s)
    ensures var (t, alive) := Heartbeat(s, j, i, owner, token, seconds, now);
            var extended := LeaseRuns(s, j, owner, token, now);
            && (extended ==>
                  && t == s.(runtimes := t.runtimes) && TouchesOnly(s, t, j)
                  && t.runtimes[j] == s.runtimes[j].(lease := Some(Lease(owner, now + seconds))))
            && (!extended ==> t == s)
            && (alive <==> extended && HeldClaim(s, j, i, owner, token))
  {
  }

  /** A claim is current exactly when its run and its job hold it, the job is listed, on and at its revision,
      there is no hold, and the lease runs. */
  lemma CurrentExactly(s: State, c: Claim, now: Time)
    requires Shaped(s)
    ensures RunClaimCurrent(s, c, now) <==>
              && HeldClaim(s, c.job, c.run, c.owner, c.token)
              && Listed(s, c.job) && s.jobs[c.job].desiredOn && s.jobs[c.job].revision == c.revision
              && !s.hold.enabled && now < s.runtimes[c.job].lease.value.until
  {
  }

  /** A cursor is written exactly under a lease of the job that runs, its token, and the revision of the
      cursor, which the write raises; no other cursor changes. */
  lemma Writes(s: State, j: nat, name: CursorName, value: Option<CursorValue>, expected: nat, owner: Owner, token: nat, now: Time)
    requires Shaped(s)
    ensures var r := UpdateCursor(s, j, name, value, expected, owner, token, now);
            var holds := LeaseRuns(s, j, owner, token, now);
            && (r.Ok? <==> holds && CursorOf(s, j, name).revision == expected)
            && (r.Err? ==> r.code == if holds then "automation_cursor_revision_conflict" else "automation_fencing_conflict")
            && (r.Ok? ==>
                  && r.state == s.(cursors := r.state.cursors) && r.value == expected + 1
                  && CursorOf(r.state, j, name) == Cursor(value, expected + 1)
                  && forall k: nat, other | (k, other) != (j, name) :: CursorOf(r.state, k, other) == CursorOf(s, k, other))
  {
  }

  /** A cursor that was never written has no value, at revision zero. */
  lemma UnwrittenCursor(s: State, j: nat, name: CursorName)
    ensures CursorOf(s, j, name) == if (j, name) in s.cursors then s.cursors[(j, name)] else Cursor(None, 0)
  {
  }

  // ----- Deliveries

  /** A row may be delivered when it waits for an attempt whose time has come, under no lease that runs, for a
      listed job that is on, or for a test of one; or when an attempt was left in transit and its lease has run
      out. */
  predicate MayDeliver(s: State, now: Time, o: nat)
    requires Shaped(s) && o < |s.outbox|
  {
    var row := s.outbox[o];
    || (&& (row.status == Pending || row.status == Undelivered) && row.nextAttempt <= now
        && (row.lease.Some? ==> row.lease.value.until <= now)
        && Listed(s, row.job) && (s.jobs[row.job].desiredOn || row.notice.TestNotice?))
    || (row.status == InTransit && row.lease.Some? && row.lease.value.until <= now)
  }

  /** Attempts left in transit come first, then the earliest attempt, then the oldest intent. */
  predicate ComesFirst(a: OutboxRow, b: OutboxRow) {
    if (a.status == InTransit) != (b.status == InTransit) then a.status == InTransit
    else if a.nextAttempt != b.nextAttempt then a.nextAttempt < b.nextAttempt
    else a.createdAt <= b.createdAt
  }

  /** A delivery is claimed for the first row that may be delivered, under its next token; it counts as an
      attempt unless it only recovers one, and nothing is claimed when no row may be delivered. */
  lemma ClaimsDelivery(s: State, owner: Owner, seconds: int, now: Time, pick: Option<nat>)
    requires Shaped(s) && !s.hold.enabled && 10 <= seconds <= 600 && FirstDeliverable(s, now, pick)
    ensures var (t, d) := ClaimOutbox(s, owner, seconds, now, pick);
            && (pick.None? ==> (t, d) == (s, None) && forall o | 0 <= o < |s.outbox| :: !MayDeliver(s, now, o))
            && (pick.Some? ==>
                  && pick.value < |s.outbox| && MayDeliver(s, now, pick.value)
                  && (forall o | 0 <= o < |s.outbox| && MayDeliver(s, now, o) :: ComesFirst(s.outbox[pick.value], s.outbox[o]))
                  && t == s.(outbox := t.outbox) && |t.outbox| == |s.outbox|
                  && (forall o | 0 <= o < |s.outbox| && o != pick.value :: t.outbox[o] == s.outbox[o])
                  && var row := s.outbox[pick.value];
                     && d == Some(Delivery(pick.value, owner, s.jobs[row.job].revision, row.status == InTransit, row.fence + 1))
                     && t.outbox[pick.value] == row.(status := InTransit, lease := Some(Lease(owner, now + seconds)), fence := row.fence + 1,
                                                     attempts := if row.status == InTransit then row.attempts else row.attempts + 1))
  {
    forall o | 0 <= o < |s.outbox| ensures Deliverable(s, now, o) == MayDeliver(s, now, o) { }
    forall a, b ensures Precedes(a, b) == ComesFirst(a, b) { }
  }

  /** The row is in transit under this owner and token, and its lease runs. */
  predicate HeldRow(s: State, o: nat, owner: Owner, token: nat, now: Time) {
    && o < |s.outbox| && s.outbox[o].status == InTransit && s.outbox[o].fence == token
    && s.outbox[o].lease.Some? && s.outbox[o].lease.value.owner == owner && now < s.outbox[o].lease.value.until
  }

  lemma DeliveryCurrentExactly(s: State, d: Delivery, now: Time)
    requires Shaped(s)
    ensures DeliveryCurrent(s, d, now) <==>
              && HeldRow(s, d.row, d.owner, d.token, now) && !s.hold.enabled
              && Listed(s, s.outbox[d.row].job) && s.jobs[s.outbox[d.row].job].revision == d.revision
              && (s.jobs[s.outbox[d.row].job].desiredOn || s.outbox[d.row].notice.TestNotice?)
  {
  }

  /** The only row that changes loses its lease and keeps its token, its intent and its attempts. */
  ghost predicate SettlesRow(s: State, t: State, o: nat) {
    && o < |s.outbox| && t == s.(outbox := t.outbox) && |t.outbox| == |s.outbox|
    && (forall k | 0 <= k < |s.outbox| && k != o :: t.outbox[k] == s.outbox[k])
    && t.outbox[o].lease.None?
    && t.outbox[o].(status := s.outbox[o].status, result := s.outbox[o].result, lease := s.outbox[o].lease, nextAttempt := s.outbox[o].nextAttempt)
       == s.outbox[o]
  }

  /** A finished delivery is sent, or undelivered and due again after the pause asked for at the earliest. */
  lemma FinishesDelivery(s: State, o: nat, owner: Owner, token: nat, sent: bool, code: Code, pause: int, now: Time)
    ensures var (t, done) := FinishDelivery(s, o, owner, token, sent, code, pause, now);
            && (done <==> 10 <= pause <= 86400 && HeldRow(s, o, owner, token, now))
            && (!done ==> t == s)
            && (done ==>
                  && SettlesRow(s, t, o) && t.outbox[o].result == Some(code)
                  && t.outbox[o].status == (if sent then Sent else Undelivered)
                  && t.outbox[o].nextAttempt == (if sent then now else now + pause)
                  && (!sent ==> now < t.outbox[o].nextAttempt))
  {
  }

  /** A cancelled delivery drops its row; a blocked one leaves it in transit, out of reach of every claim. */
  lemma GivesUpDelivery(s: State, o: nat, owner: Owner, token: nat, code: Code, now: Time)
    ensures var (t, done) := CancelDelivery(s, o, owner, token, code, now);
            && (done <==> HeldRow(s, o, owner, token, now)) && (!done ==> t == s)
            && (done ==> SettlesRow(s, t, o) && t.outbox[o].status == Dropped && t.outbox[o].result == Some(code)
                         && t.outbox[o].nextAttempt == s.outbox[o].nextAttempt)
    ensures var (t, done) := BlockDelivery(s, o, owner, token, code, now);
            && (done <==> HeldRow(s, o, owner, token, now)) && (!done ==> t == s)
            && (done ==> SettlesRow(s, t, o) && t.outbox[o].status == InTransit && t.outbox[o].result == Some(code)
                         && t.outbox[o].nextAttempt == s.outbox[o].nextAttempt)
  {
  }
}

/** The store itself: the tables as fields, the transactions as methods that update them in place.

The answers of ordered queries come in as arguments; every method is proved against the transaction
of the same purpose in Steps. */
module Store {
  import opened Options
  import opened Tables
  import opened Steps
  import opened Invariants
  import opened Preservation
  import opened Promises

  datatype Reply<+T> = Done(value: T) | Refused(code: Code)

  class AutomationStore {
    const cal: Calendar
    var jobs: seq<Job>
    var runtimes: seq<Runtime>
    var runs: seq<Run>
    var cursors: map<(nat, CursorName), Cursor>
    var outbox: seq<OutboxRow>
    var commands: seq<Command>
    var hold: Hold
    var incidents: nat

    function Snapshot(): State
      reads this
    {
      State(jobs, runtimes, runs, cursors, outbox, commands, hold, incidents)
    }

    constructor (cal: Calendar)
      ensures this.cal == cal && Snapshot() == EMPTY && Valid(Snapshot())
    {
      this.cal := cal;
      jobs, runtimes, runs, cursors, outbox, commands := [], [], [], map[], [], [];
      hold, incidents := NO_HOLD, 0;
    }

    // ----- Mutations that a command runs inside its own transaction

    /** Tables and reply are those of the transaction `r`.  After a refusal the tables may be anything:
        the command that ran the mutation rolls them back. */
    ghost predicate Meets(r: Result<Response>, reply: Reply<Response>)
      reads this
    {
      match r
      case Ok(t, value) => Snapshot() == t && reply == Done(value)
      case Err(code) => reply == Refused(code)
    }

    method CreateFromTemplate(t: Template, schedule: Schedule, now: Time) returns (reply: Reply<Response>)
      modifies `jobs, `runtimes
      ensures Meets(CreateJob(old(Snapshot()), t, schedule, now), reply)
    {
      if !ScheduleAllowed(t, schedule) { return Refused("automation_schedule_out_of_range"); }
      if LiveTemplate(jobs, t) { return Refused("automation_singleton_exists"); }
      reply := Done(Created(|jobs|));
      jobs := jobs + [Job(t, false, schedule, 1, now, false)];
      runtimes := runtimes + [Runtime(Disabled, None, None, 0, None, None, 1)];
    }

    method SetJobEnabled(job: nat, enabled: bool, expected: int, now: Time) returns (reply: Reply<Response>)
      requires Shaped(Snapshot())
      modifies `jobs, `runtimes, `runs
      ensures Meets(Steps.SetJobEnabled(old(Snapshot()), job, enabled, expected, now), reply)
    {
      var refusal := Refusal(Snapshot(), job, expected);
      if refusal.Some? { return Refused(refusal.value); }
      var row := jobs[job];
      if row.desiredOn == enabled { return Done(Changed(false)); }
      jobs := jobs[job := row.(desiredOn := enabled, revision := row.revision + 1, updatedAt := now)];
      if !enabled {
        var rt := runtimes[job];
        if LeaseActive(rt, now) {
          rt := rt.(actual := Stopping);
        }
        runtimes := runtimes[job := rt.(nextRun := None)];
        runs := CancelQueued(runs, job, "automation_disabled");
      }
      return Done(Changed(true));
    }

    method SetJobSchedule(job: nat, schedule: Schedule, expected: int, now: Time) returns (reply: Reply<Response>)
      requires Shaped(Snapshot())
      modifies `jobs
      ensures Meets(Steps.SetJobSchedule(old(Snapshot()), job, schedule, expected, now), reply)
    {
      var refusal := Refusal(Snapshot(), job, expected);
      if refusal.Some? { return Refused(refusal.value); }
      var row := jobs[job];
      if !ScheduleAllowed(row.template, schedule) { return Refused("automation_schedule_out_of_range"); }
      if schedule == row.schedule { return Done(Changed(false)); }
      jobs := jobs[job := row.(schedule := schedule, revision := row.revision + 1, updatedAt := now)];
      return Done(Changed(true));
    }

    method EnqueueRun(job: nat, command: nat, expected: int, now: Time, pick: Option<nat>) returns (reply: Reply<Response>)
      requires Shaped(Snapshot())
      requires Refusal(Snapshot(), job, expected).None? ==> FirstCovering(Snapshot(), job, now, pick)
      modifies `runs, `runtimes
      ensures Meets(Steps.EnqueueRun(old(Snapshot()), job, command, expected, now, pick), reply)
    {
      var refusal := Refusal(Snapshot(), job, expected);
      if refusal.Some? { return Refused(refusal.value); }
      if !jobs[job].desiredOn { return Refused("automation_not_enabled"); }
      if pick.Some? {
        var run := runs[pick.value];
        runs := runs[pick.value := run.(coalesced := run.coalesced + 1)];
        return Done(Enqueued(pick.value, true));
      }
      reply := Done(Enqueued(|runs|, false));
      runs := runs + [Run(job, Manual(command), Queued, now, None, 0, None)];
      runtimes := runtimes[job := runtimes[job].(actual := Waiting)];
    }

    method EnqueueNotificationTest(job: nat, command: nat, expected: int, now: Time) returns (reply: Reply<Response>)
      modifies `outbox
      ensures Meets(EnqueueTest(old(Snapshot()), job, command, expected, now), reply)
    {
      var refusal := Refusal(Snapshot(), job, expected);
      if refusal.Some? { return Refused(refusal.value); }
      reply := Done(TestQueued(|outbox|));
      outbox := outbox + [NewRow(job, None, TestNotice(command), now)];
    }

    /** Gives up the retryable alerts first, and finds out only then that a delivery is pending. */
    method ArchiveJob(job: nat, expected: int, checked: Time, now: Time) returns (reply: Reply<Response>)
      requires Shaped(Snapshot())
      modifies `jobs, `runtimes, `runs, `outbox
      ensures Meets(Steps.ArchiveJob(old(Snapshot()), job, expected, checked, now), reply)
    {
      var refusal := Refusal(Snapshot(), job, expected);
      if refusal.Some? { return Refused(refusal.value); }
      var row := jobs[job];
      if row.desiredOn { return Refused("automation_disable_before_archive"); }
      if LeaseActive(runtimes[job], checked) { return Refused("automation_lease_active"); }
      outbox := DropAlerts(outbox, job, now);
      if AwaitsDelivery(outbox, job) { return Refused("automation_delivery_pending"); }
      jobs := jobs[job := row.(archived := true, revision := row.revision + 1, updatedAt := now)];
      runtimes := runtimes[job := runtimes[job].(actual := Archived, nextRun := None, applied := row.revision + 1)];
      runs := CancelQueued(runs, job, "automation_archived");
      return Done(JobArchived(row.revision + 1));
    }

    method SetHold(enabled: bool, reason: Option<HoldReason>, actor: Actor, attempt: Option<nat>, expected: int)
      returns (reply: Reply<Response>)
      modifies `hold
      ensures Meets(Steps.SetHold(old(Snapshot()), enabled, reason, actor, attempt, expected), reply)
    {
      if expected < 0 { return Refused("expected_revision_required"); }
      if enabled && reason == Some(Release) && attempt.None? { return Refused("automation_global_hold_attempt_required"); }
      if enabled && reason != Some(Release) && attempt.Some? { return Refused("automation_global_hold_attempt_invalid"); }
      if !enabled && reason.Some? { return Refused("automation_global_hold_reason_invalid"); }
      if expected != hold.revision { return Refused("automation_revision_conflict"); }
      if hold.enabled {
        var sameOwner, sameAttempt := hold.owner == Some(actor), hold.attempt == attempt;
        if hold.reason == Some(Release) && !(sameOwner && sameAttempt) { return Refused("automation_global_hold_ownership_lost"); }
        if enabled && hold.reason == reason && !(sameOwner && sameAttempt) { return Refused("automation_global_hold_ownership_lost"); }
      }
      if hold.enabled == enabled && hold.reason == reason { return Done(HoldSet(false, hold.revision)); }
      hold := Hold(enabled, reason, if enabled then Some(actor) else None, if enabled then attempt else None, hold.revision + 1);
      return Done(HoldSet(true, hold.revision));
    }

    method Dispatch(request: Request, command: nat, c: Context) returns (reply: Reply<Response>)
      requires Shaped(Snapshot())
      requires PickAnswers(Snapshot(), request, c)
      modifies `jobs, `runtimes, `runs, `outbox, `hold
      ensures Meets(Mutate(old(Snapshot()), request, command, c), reply)
    {
      var Request(op, expected, actor) := request;
      if op.CreateFromTemplate? {
        reply := CreateFromTemplate(op.template, op.schedule, c.now);
        return;
      }
      if op.SetGlobalHold? {
        reply := SetHold(op.enabled, op.reason, actor, op.attempt, expected);
        return;
      }
      if hold.enabled { return Refused("automation_global_hold"); }
      if op.job >= |jobs| || jobs[op.job].archived { return Refused("automation_job_not_found"); }
      if jobs[op.job].template != CrmDigest { return Refused("automation_role_control_required"); }
      match op {
        case SetEnabled(job, enabled) =>
          if enabled && !c.ready { return Refused("automation_not_ready"); }
          reply := SetJobEnabled(job, enabled, expected, c.now);
        case SetSchedule(job, schedule) => reply := SetJobSchedule(job, schedule, expected, c.now);
        case RunNow(job) => reply := EnqueueRun(job, command, expected, c.now, c.pick);
        case TestNotification(job) => reply := EnqueueNotificationTest(job, command, expected, c.now);
        case Archive(job) => reply := ArchiveJob(job, expected, c.checked, c.now);
      }
    }

    /** The run that the pending query of a run-now command returned. */
    ghost predicate PickAnswers(s: State, request: Request, c: Context)
    {
      request.op.RunNow? && Shaped(s) && request.op.job < |s.jobs| ==> FirstCovering(s, request.op.job, c.now, c.pick)
    }

    /** Records a command, runs its mutation and keeps the response.  A refusal restores every table,
        the record of the command included. */
    method RecordCommand(key: string, request: Request, c: Context) returns (reply: Reply<Response>)
      requires Shaped(Snapshot())
      requires PickAnswers(Snapshot(), request, c)
      modifies this
      ensures match Mutate(old(Snapshot()), request, old(|commands|), c)
              case Ok(t, response) =>
                && reply == Done(response)
                && Snapshot() == t.(commands := old(commands) + [Command(request.actor.kind, key, request, response)])
              case Err(code) => reply == Refused(code) && Snapshot() == old(Snapshot())
    {
      hide Mutate, FirstCovering;
      var before := Snapshot();
      var command := |commands|;
      commands := commands + [Command(request.actor.kind, key, request, NoResponse)];
      MutateIgnoresCommands(before, commands, request, command, c);
      if request.op.RunNow? && request.op.job < |jobs| {
        CoveringIgnoresCommands(before, commands, request.op.job, c.now, c.pick);
      }
      reply := Dispatch(request, command, c);
      if reply.Done? {
        commands := commands[command := commands[command].(response := reply.value)];
      } else {
        jobs, runtimes, runs, cursors := before.jobs, before.runtimes, before.runs, before.cursors;
        outbox, commands, hold, incidents := before.outbox, before.commands, before.hold, before.incidents;
      }
    }

    method ExecuteCommand(key: string, request: Request, c: Context) returns (reply: Reply<Response>)
      requires Valid(Snapshot())
      requires PickAnswers(Snapshot(), request, c)
      modifies this
      ensures Meets(Execute(old(Snapshot()), key, request, c), reply)
      ensures reply.Refused? ==> Snapshot() == old(Snapshot())
      ensures Valid(Snapshot())
    {
      hide Valid, Mutate, FirstCovering;
      ExecuteKeeps(Snapshot(), key, request, c);
      ValidIsShaped(Snapshot());
      var source := request.actor.kind;
      if request.op.SetGlobalHold? && source != System { return Refused("automation_permission_denied"); }
      if i :| 0 <= i < |commands| && Named(commands[i], source, key) {
        NameIsUnique(commands, i, source, key);
        assert HasCommand(commands, source, key) && commands[i] == commands[FindCommand(commands, source, key)];
        if commands[i].request != request { return Refused("idempotency_key_conflict"); }
        return Done(commands[i].response);
      }
      assert !HasCommand(commands, source, key);
      reply := RecordCommand(key, request, c);
    }

    // ----- Reconciliation and claims

    method ReconcileNextJob(now: Time, pick: Option<nat>) returns (r: Reconciled)
      requires Valid(Snapshot()) && OldestOutOfSync(Snapshot(), pick)
      modifies `runtimes, `runs
      ensures (Snapshot(), r) == Reconcile(cal, old(Snapshot()), now, pick)
      ensures Valid(Snapshot())
    {
      hide Valid;
      ValidIsShaped(Snapshot());
      ReconcileKeeps(cal, Snapshot(), now, pick);
      if hold.enabled || pick.None? { return Nothing; }
      var j := pick.value;
      var job, rt := jobs[j], runtimes[j];
      if LeaseActive(rt, now) {
        if !job.desiredOn { runtimes := runtimes[j := rt.(actual := Stopping, nextRun := None)]; }
        return Blocked(j);
      }
      if job.desiredOn {
        var next := NextScheduled(cal, now, job.schedule.everySeconds, job.schedule);
        rt := rt.(nextRun := Some(next), actual := if rt.incident.Some? then Errored else Idle);
      } else {
        rt := rt.(nextRun := None, actual := Disabled);
        runs := CancelQueued(runs, j, "automation_disabled");
      }
      runtimes := runtimes[j := rt.(applied := job.revision)];
      return Applied(j);
    }

    /** Fails every claim whose lease has run out. */
    method SweepExpired(now: Time)
      requires Shaped(Snapshot())
      modifies `runtimes, `runs, `outbox, `incidents
      ensures Snapshot() == Sweep(old(Snapshot()), now, 0)
    {
      hide FailExpired;
      ghost var s := Snapshot();
      for j := 0 to |jobs|
        invariant jobs == s.jobs && cursors == s.cursors && commands == s.commands && hold == s.hold
        invariant Shaped(Snapshot())
        invariant Sweep(s, now, 0) == Sweep(Snapshot(), now, j)
      {
        var rt := runtimes[j];
        if Expired(rt, now) {
          ghost var t := Snapshot();
          runs := FailExpired(runs, j, rt.fence);
          var incident;
          if rt.incident.Some? {
            incident := rt.incident.value;
          } else {
            incident := Incident(incidents, "automation_lease_expired");
            incidents := incidents + 1;
            outbox := outbox + [NewRow(j, None, ErrorAlert(incident.id, "automation_lease_expired"), now)];
          }
          runtimes := runtimes[j := rt.(actual := Errored, lease := None, errorCode := Some("automation_lease_expired"),
                                        incident := Some(incident))];
          assert Snapshot() == ExpireClaim(t, j, now);
        }
      }
    }

    /** Puts off the due jobs outside their window until one inside it is found. */
    method ChooseDue(now: Time, due: seq<nat>) returns (chosen: Option<nat>)
      requires Shaped(Snapshot()) && forall i | 0 <= i < |due| :: due[i] < |jobs|
      modifies `runtimes
      ensures (Snapshot(), chosen) == Defer(cal, old(Snapshot()), now, due)
    {
      ghost var s := Snapshot();
      var i := 0;
      while i < |due|
        invariant i <= |due| && |runtimes| == |jobs|
        invariant Shaped(Snapshot())
        invariant Defer(cal, s, now, due) == Defer(cal, Snapshot(), now, due[i..])
      {
        var j := due[i];
        assert due[i..][0] == j && due[i..][1..] == due[i + 1..];
        if cal.active(now, jobs[j].schedule) { return Some(j); }
        runtimes := runtimes[j := runtimes[j].(nextRun := Some(cal.next(now, jobs[j].schedule)))];
        i := i + 1;
      }
      return None;
    }

    method ClaimNextRun(owner: Owner, seconds: int, now: Time, pick: Option<nat>, due: seq<nat>) returns (r: Reply<Option<Claim>>)
      requires Valid(Snapshot())
      requires FirstClaimable(Sweep(Snapshot(), now, 0), now, pick)
      requires pick.None? ==> DueOrder(Sweep(Snapshot(), now, 0), now, due)
      modifies `runtimes, `runs, `outbox, `incidents
      ensures Valid(Snapshot())
      ensures r.Refused? <==> !(10 <= seconds <= 600)
      ensures r.Refused? ==> Snapshot() == old(Snapshot())
      ensures r.Done? ==> (Snapshot(), r.value) == ClaimRun(cal, old(Snapshot()), owner, seconds, now, pick, due)
    {
      hide Valid, FirstClaimable, Sweep, Defer, DueOrder;
      ValidIsShaped(Snapshot());
      ClaimRunKeeps(cal, Snapshot(), owner, seconds, now, pick, due);
      if !(10 <= seconds <= 600) { return Refused("automation_lease_invalid"); }
      if hold.enabled { return Done(None); }
      SweepExpired(now);
      var run;
      if pick.Some? {
        ClaimableIsRun(Snapshot(), now, pick.value);
        run := pick.value;
      } else {
        DueAreJobs(Snapshot(), now, due);
        var chosen := ChooseDue(now, due);
        if chosen.None? { return Done(None); }
        run := |runs|;
        runs := runs + [Run(chosen.value, Scheduled, Queued, now, None, 0, None)];
      }
      var j := runs[run].job;
      var token, revision := runtimes[j].fence + 1, jobs[j].revision;
      runtimes := runtimes[j := runtimes[j].(actual := Running, lease := Some(Lease(owner, now + seconds)), fence := token, errorCode := None)];
      runs := runs[run := runs[run].(status := Active, grant := Some(Grant(owner, token, revision)))];
      return Done(Some(Claim(run, j, owner, revision, token)));
    }

    method RunClaimIsCurrent(c: Claim, now: Time) returns (current: bool)
      requires Shaped(Snapshot())
      ensures current == RunClaimCurrent(Snapshot(), c, now)
    {
      if c.run >= |runs| || c.job >= |jobs| { return false; }
      var run, job, rt := runs[c.run], jobs[c.job], runtimes[c.job];
      if !IsClaimOf(run, c.job, c.owner, c.token) || !Holds(rt, c.owner, c.token) { return false; }
      if job.archived || !job.desiredOn || job.revision != c.revision || hold.enabled { return false; }
      return rt.lease.value.until > now;
    }

    method CancelRunClaim(job: nat, run: nat, owner: Owner, token: nat, code: Code, now: Time) returns (done: bool)
      requires Valid(Snapshot())
      modifies `runtimes, `runs
      ensures (Snapshot(), done) == CancelRun(cal, old(Snapshot()), job, run, owner, token, code, now)
      ensures Valid(Snapshot())
    {
      hide Valid;
      ValidIsShaped(Snapshot());
      CancelRunKeeps(cal, Snapshot(), job, run, owner, token, code, now);
      if job >= |jobs| || !Holds(runtimes[job], owner, token) { return false; }
      if run >= |runs| || !IsClaimOf(runs[run], job, owner, token) { return false; }
      runs := runs[run := runs[run].(status := Cancelled, result := Some(code))];
      var next, actual := None, Disabled;
      var rt := runtimes[job];
      if jobs[job].desiredOn {
        next := Some(NextScheduled(cal, now, jobs[job].schedule.everySeconds, jobs[job].schedule));
        actual := if rt.incident.Some? then Errored else Idle;
      }
      runtimes := runtimes[job := rt.(actual := actual, nextRun := next, lease := None, applied := jobs[job].revision)];
      return true;
    }

    /** Extends the lease even when the run it names is not the one that holds it. */
    method HeartbeatRun(job: nat, run: nat, owner: Owner, token: nat, seconds: int, now: Time) returns (alive: bool)
      requires Valid(Snapshot())
      modifies `runtimes
      ensures (Snapshot(), alive) == Heartbeat(old(Snapshot()), job, run, owner, token, seconds, now)
      ensures Valid(Snapshot())
    {
      hide Valid;
      ValidIsShaped(Snapshot());
      HeartbeatKeeps(Snapshot(), job, run, owner, token, seconds, now);
      var changed := job < |jobs| && Holds(runtimes[job], owner, token) && LeaseActive(runtimes[job], now);
      if changed {
        runtimes := runtimes[job := runtimes[job].(lease := Some(Lease(owner, now + seconds)))];
      }
      return changed && run < |runs| && IsClaimOf(runs[run], job, owner, token);
    }

    method FinishRun(job: nat, run: nat, owner: Owner, token: nat, succeeded: bool, code: Code, delay: Option<int>, now: Time)
      returns (r: Reply<bool>)
      requires Valid(Snapshot())
      modifies `runtimes, `runs, `outbox, `incidents
      ensures Snapshot() == Steps.FinishRun(cal, old(Snapshot()), job, run, owner, token, succeeded, code, delay, now).0
      ensures r == if delay.Some? && !(5 <= delay.value <= 86400) then Refused("automation_next_delay_invalid")
                   else Done(Steps.FinishRun(cal, old(Snapshot()), job, run, owner, token, succeeded, code, delay, now).1)
      ensures Valid(Snapshot())
    {
      hide Valid;
      ValidIsShaped(Snapshot());
      FinishRunKeeps(cal, Snapshot(), job, run, owner, token, succeeded, code, delay, now);
      if delay.Some? && !(5 <= delay.value <= 86400) { return Refused("automation_next_delay_invalid"); }
      if job >= |jobs| || !Holds(runtimes[job], owner, token) { return Done(false); }
      if run >= |runs| || !IsClaimOf(runs[run], job, owner, token) { return Done(false); }
      runs := runs[run := runs[run].(status := if succeeded then Succeeded else Failed, result := Some(code))];
      var rt := runtimes[job];
      var incident := rt.incident;
      if !succeeded && incident.None? {
        incident := Some(Incident(incidents, code));
        outbox := outbox + [NewRow(job, Some(run), ErrorAlert(incidents, code), now)];
        incidents := incidents + 1;
      } else if succeeded && incident.Some? {
        outbox := outbox + [NewRow(job, Some(run), RecoveryAlert(incident.value.id, incident.value.code), now)];
        incident := None;
      } else {
        assert outbox + [] == outbox;
      }
      var wait := if delay.Some? then delay.value else jobs[job].schedule.everySeconds;
      var next := None;
      if jobs[job].desiredOn { next := Some(NextScheduled(cal, now, wait, jobs[job].schedule)); }
      var actual := if jobs[job].desiredOn then Idle else Disabled;
      if !succeeded { actual := Errored; }
      runtimes := runtimes[job := rt.(actual := actual, nextRun := next, lease := None,
                                      errorCode := if succeeded then None else Some(code),
                                      incident := incident, applied := jobs[job].revision)];
      return Done(true);
    }

    // ----- Cursors

    method UpdateCursor(job: nat, name: CursorName, value: Option<CursorValue>, expected: nat, owner: Owner, token: nat, now: Time)
      returns (reply: Reply<nat>)
      requires Valid(Snapshot())
      modifies `cursors
      ensures match Steps.UpdateCursor(old(Snapshot()), job, name, value, expected, owner, token, now)
              case Ok(t, revision) => Snapshot() == t && reply == Done(revision)
              case Err(code) => Snapshot() == old(Snapshot()) && reply == Refused(code)
      ensures Valid(Snapshot())
    {
      hide Valid;
      ValidIsShaped(Snapshot());
      if !(job < |jobs| && Holds(runtimes[job], owner, token) && LeaseActive(runtimes[job], now)) {
        return Refused("automation_fencing_conflict");
      }
      var revision := if (job, name) in cursors then cursors[(job, name)].revision else 0;
      if revision != expected { return Refused("automation_cursor_revision_conflict"); }
      CursorsKeep(Snapshot(), cursors[(job, name) := Cursor(value, revision + 1)]);
      cursors := cursors[(job, name) := Cursor(value, revision + 1)];
      return Done(revision + 1);
    }

    // ----- The outbox

    method ClaimDelivery(owner: Owner, seconds: int, now: Time, pick: Option<nat>) returns (r: Reply<Option<Delivery>>)
      requires Valid(Snapshot()) && FirstDeliverable(Snapshot(), now, pick)
      modifies `outbox
      ensures r.Refused? <==> !(10 <= seconds <= 600)
      ensures Snapshot() == ClaimOutbox(old(Snapshot()), owner, seconds, now, pick).0
      ensures r.Done? ==> r.value == ClaimOutbox(old(Snapshot()), owner, seconds, now, pick).1
      ensures Valid(Snapshot())
    {
      hide Valid,
           Execute, Reconcile, ClaimRun, CancelRun, Heartbeat, Steps.FinishRun, FirstDeliverable;
      ValidIsShaped(Snapshot());
      StepKeeps(cal, Snapshot(), DoClaimOutbox(owner, seconds, now, pick));
      if !(10 <= seconds <= 600) { return Refused("automation_lease_invalid"); }
      if hold.enabled || pick.None? { return Done(None); }
      var o := pick.value;
      DeliverableIsRow(Snapshot(), now, o);
      var row := outbox[o];
      var token := row.fence + 1;
      var recovery := row.status == InTransit;
      if !recovery {
        row := row.(status := InTransit, attempts := row.attempts + 1);
      }
      outbox := outbox[o := row.(lease := Some(Lease(owner, now + seconds)), fence := token)];
      return Done(Some(Delivery(o, owner, jobs[row.job].revision, recovery, token)));
    }

    method DeliveryIsCurrent(d: Delivery, now: Time) returns (current: bool)
      requires Shaped(Snapshot())
      ensures current == DeliveryCurrent(Snapshot(), d, now)
    {
      if !InHand(Snapshot(), d.row, d.owner, d.token, now) { return false; }
      var row := outbox[d.row];
      var job := jobs[row.job];
      return !job.archived && job.revision == d.revision && (job.desiredOn || row.notice.TestNotice?) && !hold.enabled;
    }

    method CancelOutboxClaim(o: nat, owner: Owner, token: nat, code: Code, now: Time) returns (done: bool)
      requires Valid(Snapshot())
      modifies `outbox
      ensures (Snapshot(), done) == CancelDelivery(old(Snapshot()), o, owner, token, code, now)
      ensures Valid(Snapshot())
    {
      hide Valid,
           Execute, Reconcile, ClaimRun, CancelRun, Heartbeat, Steps.FinishRun, FirstDeliverable;
      ValidIsShaped(Snapshot());
      StepKeeps(cal, Snapshot(), DoCancelDelivery(o, owner, token, code, now));
      if !InHand(Snapshot(), o, owner, token, now) { return false; }
      outbox := outbox[o := outbox[o].(status := Dropped, result := Some(code), lease := None)];
      return true;
    }

    method BlockOutboxClaim(o: nat, owner: Owner, token: nat, code: Code, now: Time) returns (done: bool)
      requires Valid(Snapshot())
      modifies `outbox
      ensures (Snapshot(), done) == BlockDelivery(old(Snapshot()), o, owner, token, code, now)
      ensures Valid(Snapshot())
    {
      hide Valid,
           Execute, Reconcile, ClaimRun, CancelRun, Heartbeat, Steps.FinishRun, FirstDeliverable;
      ValidIsShaped(Snapshot());
      StepKeeps(cal, Snapshot(), DoBlockDelivery(o, owner, token, code, now));
      if !InHand(Snapshot(), o, owner, token, now) { return false; }
      outbox := outbox[o := outbox[o].(result := Some(code), lease := None)];
      return true;
    }

    method FinishOutbox(o: nat, owner: Owner, token: nat, sent: bool, code: Code, retry: int, now: Time) returns (r: Reply<bool>)
      requires Valid(Snapshot())
      modifies `outbox
      ensures Snapshot() == FinishDelivery(old(Snapshot()), o, owner, token, sent, code, retry, now).0
      ensures r == if !(10 <= retry <= 86400) then Refused("automation_retry_invalid")
                   else Done(FinishDelivery(old(Snapshot()), o, owner, token, sent, code, retry, now).1)
      ensures Valid(Snapshot())
    {
      hide Valid,
           Execute, Reconcile, ClaimRun, CancelRun, Heartbeat, Steps.FinishRun, FirstDeliverable;
      ValidIsShaped(Snapshot());
      StepKeeps(cal, Snapshot(), DoFinishDelivery(o, owner, token, sent, code, retry, now));
      if !(10 <= retry <= 86400) { return Refused("automation_retry_invalid"); }
      if !InHand(Snapshot(), o, owner, token, now) { return Done(false); }
      var row := outbox[o].(result := Some(code), lease := None);
      if sent {
        row := row.(status := Sent, nextAttempt := now);
      } else {
        row := row.(status := Undelivered, nextAttempt := now + retry);
      }
      outbox := outbox[o := row];
      return Done(true);
    }
  }

  lemma ValidIsShaped(s: State)
    requires Valid(s)
    ensures Shaped(s) && CommandsUnique(s.commands)
  {
  }

  lemma DueAreJobs(s: State, now: Time, due: seq<nat>)
    requires Shaped(s) && DueOrder(s, now, due)
    ensures forall i | 0 <= i < |due| :: due[i] < |s.jobs|
  {
  }

  lemma DeliverableIsRow(s: State, now: Time, o: nat)
    requires Shaped(s) && FirstDeliverable(s, now, Some(o))
    ensures o < |s.outbox|
  {
  }

  lemma ClaimableIsRun(s: State, now: Time, r: nat)
    requires Shaped(s) && FirstClaimable(s, now, Some(r))
    ensures r < |s.runs|
  {
  }

  /** The same transaction with another record of commands. */
  ghost function WithCommands(r: Result<Response>, commands: seq<Command>): Result<Response> {
    match r
    case Ok(t, response) => Ok(t.(commands := commands), response)
    case Err(code) => Err(code)
  }

  lemma CoveringIgnoresCommands(s: State, commands: seq<Command>, job: nat, now: Time, pick: Option<nat>)
    requires Shaped(s) && job < |s.jobs|
    ensures var t := s.(commands := commands); Shaped(t) && FirstCovering(t, job, now, pick) == FirstCovering(s, job, now, pick)
  {
    var t := s.(commands := commands);
    assert forall q | 0 <= q < |s.runs| :: Covers(t, job, now, q) == Covers(s, job, now, q);
  }

  lemma EnqueueIgnoresCommands(s: State, commands: seq<Command>, job: nat, command: nat, expected: int, now: Time, pick: Option<nat>)
    requires Shaped(s)
    ensures var t := s.(commands := commands);
            && Shaped(t)
            && Steps.EnqueueRun(t, job, command, expected, now, pick)
               == WithCommands(Steps.EnqueueRun(s, job, command, expected, now, pick), commands)
  {
    hide FirstCovering;
    if job < |s.jobs| { CoveringIgnoresCommands(s, commands, job, now, pick); }
  }

  lemma ArchiveIgnoresCommands(s: State, commands: seq<Command>, job: nat, expected: int, checked: Time, now: Time)
    requires Shaped(s)
    ensures var t := s.(commands := commands);
            && Shaped(t)
            && Steps.ArchiveJob(t, job, expected, checked, now) == WithCommands(Steps.ArchiveJob(s, job, expected, checked, now), commands)
  {
    hide AwaitsDelivery, Droppable;
  }

  lemma SettingIgnoresCommands(s: State, commands: seq<Command>, job: nat, enabled: bool, schedule: Schedule, expected: int, now: Time)
    requires Shaped(s)
    ensures var t := s.(commands := commands);
            && Shaped(t)
            && Steps.SetJobEnabled(t, job, enabled, expected, now) == WithCommands(Steps.SetJobEnabled(s, job, enabled, expected, now), commands)
            && Steps.SetJobSchedule(t, job, schedule, expected, now) == WithCommands(Steps.SetJobSchedule(s, job, schedule, expected, now), commands)
  {
  }

  /** No mutation reads the record of commands. */
  lemma MutateIgnoresCommands(s: State, commands: seq<Command>, request: Request, command: nat, c: Context)
    requires Shaped(s)
    ensures var t := s.(commands := commands);
            Shaped(t) && Mutate(t, request, command, c) == WithCommands(Mutate(s, request, command, c), commands)
  {
    hide FirstCovering, Steps.EnqueueRun, Steps.ArchiveJob, Steps.SetJobEnabled, Steps.SetJobSchedule;
    match request.op {
      case RunNow(job) => EnqueueIgnoresCommands(s, commands, job, command, request.expected, c.now, c.pick);
      case Archive(job) => ArchiveIgnoresCommands(s, commands, job, request.expected, c.checked, c.now);
      case SetEnabled(job, enabled) =>
        SettingIgnoresCommands(s, commands, job, enabled, Schedule(0, "", AllDay), request.expected, c.now);
      case SetSchedule(job, schedule) => SettingIgnoresCommands(s, commands, job, false, schedule, request.expected, c.now);
      case _ =>
    }
  }
}

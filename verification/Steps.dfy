/** The transactions of the store, each as one function from tables to tables.

Where a query leaves the order of equal rows open, the row it returned is an argument, and a
predicate says which rows it may return.  A rejected request gives an error and no tables: its
transaction is rolled back. */
module Steps {
  import opened Options
  import opened Tables

  const MAX_JOBS := 100

  datatype Result<+T> = Ok(state: State, value: T) | Err(code: Code)

  // ----- Queries and updates shared by the transactions

  predicate LeaseActive(rt: Runtime, now: Time) {
    rt.lease.Some? && rt.lease.value.until > now
  }

  predicate LeaseFree(lease: Option<Lease>, now: Time) {
    lease.None? || lease.value.until <= now
  }

  /** The runtime row is held by this owner under this fencing token. */
  predicate Holds(rt: Runtime, owner: Owner, token: nat) {
    rt.lease.Some? && rt.lease.value.owner == owner && rt.fence == token
  }

  predicate IsClaimOf(run: Run, job: nat, owner: Owner, token: nat) {
    && run.job == job
    && run.status == Active
    && run.grant.Some?
    && run.grant.value.owner == owner
    && run.grant.value.fence == token
  }

  function CancelQueued(runs: seq<Run>, job: nat, code: Code): (r: seq<Run>)
    ensures |r| == |runs|
    ensures forall i | 0 <= i < |runs| ::
              r[i] == if runs[i].job == job && runs[i].status == Queued
                      then runs[i].(status := Cancelled, result := Some(code)) else runs[i]
  {
    seq(|runs|, i requires 0 <= i < |runs| =>
      if runs[i].job == job && runs[i].status == Queued
      then runs[i].(status := Cancelled, result := Some(code)) else runs[i])
  }

  /** An archive gives up the incident alerts that no one is delivering. */
  function DropAlerts(outbox: seq<OutboxRow>, job: nat, now: Time): (r: seq<OutboxRow>)
    ensures |r| == |outbox|
    ensures forall i | 0 <= i < |outbox| ::
              r[i] == if Droppable(outbox[i], job, now)
                      then outbox[i].(status := Dropped, result := Some("automation_archived"), lease := None)
                      else outbox[i]
  {
    seq(|outbox|, i requires 0 <= i < |outbox| =>
      if Droppable(outbox[i], job, now)
      then outbox[i].(status := Dropped, result := Some("automation_archived"), lease := None)
      else outbox[i])
  }

  predicate AwaitsDelivery(outbox: seq<OutboxRow>, job: nat) {
    exists o :: 0 <= o < |outbox| && outbox[o].job == job && outbox[o].status in {Pending, Undelivered, InTransit}
  }

  predicate Droppable(row: OutboxRow, job: nat, now: Time) {
    && row.job == job
    && !row.notice.TestNotice?
    && row.status in {Pending, Undelivered}
    && LeaseFree(row.lease, now)
  }

  function NewRow(job: nat, run: Option<nat>, notice: Notice, now: Time): OutboxRow {
    OutboxRow(job, run, notice, Pending, 0, now, now, None, 0, None)
  }

  /** Why a command on `job` is refused before it looks at anything else. */
  function Refusal(s: State, job: nat, expected: int): Option<Code> {
    if job >= |s.jobs| || s.jobs[job].archived then Some("automation_job_not_found")
    else if expected < 1 then Some("expected_revision_required")
    else if expected != s.jobs[job].revision then Some("automation_revision_conflict")
    else None
  }

  ghost predicate Shaped(s: State) {
    && |s.jobs| == |s.runtimes|
    && (forall i | 0 <= i < |s.runs| :: s.runs[i].job < |s.jobs|)
    && (forall o | 0 <= o < |s.outbox| :: s.outbox[o].job < |s.jobs|)
  }

  // ----- Commands

  predicate ScheduleAllowed(t: Template, schedule: Schedule) {
    300 <= schedule.everySeconds <= if t == CrmDigest then 86400 else 3600
  }

  predicate LiveTemplate(jobs: seq<Job>, t: Template) {
    exists j :: 0 <= j < |jobs| && jobs[j].template == t && !jobs[j].archived
  }

  ghost function CreateJob(s: State, t: Template, schedule: Schedule, now: Time): Result<Response> {
    if !ScheduleAllowed(t, schedule) then Err("automation_schedule_out_of_range")
    else if LiveTemplate(s.jobs, t) then Err("automation_singleton_exists")
    else
      Ok(s.(jobs := s.jobs + [Job(t, false, schedule, 1, now, false)],
            runtimes := s.runtimes + [Runtime(Disabled, None, None, 0, None, None, 1)]),
         Created(|s.jobs|))
  }

  ghost function SetJobEnabled(s: State, job: nat, enabled: bool, expected: int, now: Time): Result<Response>
    requires Shaped(s)
  {
    var refusal := Refusal(s, job, expected);
    if refusal.Some? then Err(refusal.value)
    else if s.jobs[job].desiredOn == enabled then Ok(s, Changed(false))
    else
      var row := s.jobs[job].(desiredOn := enabled, revision := s.jobs[job].revision + 1, updatedAt := now);
      if enabled then Ok(s.(jobs := s.jobs[job := row]), Changed(true))
      else
        var rt := s.runtimes[job];
        var rt' := rt.(actual := if LeaseActive(rt, now) then Stopping else rt.actual, nextRun := None);
        Ok(s.(jobs := s.jobs[job := row],
              runtimes := s.runtimes[job := rt'],
              runs := CancelQueued(s.runs, job, "automation_disabled")),
           Changed(true))
  }

  ghost function SetJobSchedule(s: State, job: nat, schedule: Schedule, expected: int, now: Time): Result<Response> {
    var refusal := Refusal(s, job, expected);
    if refusal.Some? then Err(refusal.value)
    else if !ScheduleAllowed(s.jobs[job].template, schedule) then Err("automation_schedule_out_of_range")
    else if s.jobs[job].schedule == schedule then Ok(s, Changed(false))
    else
      var row := s.jobs[job].(schedule := schedule, revision := s.jobs[job].revision + 1, updatedAt := now);
      Ok(s.(jobs := s.jobs[job := row]), Changed(true))
  }

  /** A run that already covers a new request: one still queued, or one claimed at the present
      revision whose lease is active. */
  predicate Covers(s: State, job: nat, now: Time, r: nat)
    requires Shaped(s) && job < |s.jobs| && r < |s.runs|
  {
    var run := s.runs[r];
    && run.job == job
    && (|| run.status == Queued
        || (&& run.status == Active
            && run.grant.Some?
            && run.grant.value.revision == s.jobs[job].revision
            && LeaseActive(s.runtimes[job], now)
            && Holds(s.runtimes[job], run.grant.value.owner, run.grant.value.fence)))
  }

  ghost predicate FirstCovering(s: State, job: nat, now: Time, pick: Option<nat>)
    requires Shaped(s) && job < |s.jobs|
  {
    match pick
    case None => forall q | 0 <= q < |s.runs| :: !Covers(s, job, now, q)
    case Some(r) =>
      && r < |s.runs|
      && Covers(s, job, now, r)
      && forall q | 0 <= q < |s.runs| && Covers(s, job, now, q) :: s.runs[r].requestedAt <= s.runs[q].requestedAt
  }

  ghost function EnqueueRun(s: State, job: nat, command: nat, expected: int, now: Time, pick: Option<nat>): Result<Response>
    requires Shaped(s)
  {
    var refusal := Refusal(s, job, expected);
    if refusal.Some? then Err(refusal.value)
    else if !s.jobs[job].desiredOn then Err("automation_not_enabled")
    else if !FirstCovering(s, job, now, pick) then Err("query")
    else if pick.Some? then
      var run := s.runs[pick.value];
      Ok(s.(runs := s.runs[pick.value := run.(coalesced := run.coalesced + 1)]), Enqueued(pick.value, true))
    else
      Ok(s.(runs := s.runs + [Run(job, Manual(command), Queued, now, None, 0, None)],
            runtimes := s.runtimes[job := s.runtimes[job].(actual := Waiting)]),
         Enqueued(|s.runs|, false))
  }

  ghost function EnqueueTest(s: State, job: nat, command: nat, expected: int, now: Time): Result<Response> {
    var refusal := Refusal(s, job, expected);
    if refusal.Some? then Err(refusal.value)
    else Ok(s.(outbox := s.outbox + [NewRow(job, None, TestNotice(command), now)]), TestQueued(|s.outbox|))
  }

  ghost function ArchiveJob(s: State, job: nat, expected: int, checked: Time, now: Time): Result<Response>
    requires Shaped(s)
  {
    var refusal := Refusal(s, job, expected);
    if refusal.Some? then Err(refusal.value)
    else if s.jobs[job].desiredOn then Err("automation_disable_before_archive")
    else if LeaseActive(s.runtimes[job], checked) then Err("automation_lease_active")
    else
      var outbox := DropAlerts(s.outbox, job, now);
      if AwaitsDelivery(outbox, job) then Err("automation_delivery_pending")
      else
        var revision := s.jobs[job].revision + 1;
        Ok(s.(jobs := s.jobs[job := s.jobs[job].(archived := true, revision := revision, updatedAt := now)],
              runtimes := s.runtimes[job := s.runtimes[job].(actual := Archived, nextRun := None, applied := revision)],
              runs := CancelQueued(s.runs, job, "automation_archived"),
              outbox := outbox),
           JobArchived(revision))
  }

  function SetHold(s: State, enabled: bool, reason: Option<HoldReason>, actor: Actor, attempt: Option<nat>, expected: int): Result<Response>
  {
    var h := s.hold;
    var same := h.owner == Some(actor) && h.attempt == attempt;
    if expected < 0 then Err("expected_revision_required")
    else if enabled && reason == Some(Release) && attempt.None? then Err("automation_global_hold_attempt_required")
    else if enabled && reason != Some(Release) && attempt.Some? then Err("automation_global_hold_attempt_invalid")
    else if !enabled && reason.Some? then Err("automation_global_hold_reason_invalid")
    else if expected != h.revision then Err("automation_revision_conflict")
    else if h.enabled && h.reason == Some(Release) && !same then Err("automation_global_hold_ownership_lost")
    else if h.enabled && enabled && h.reason == reason && !same then Err("automation_global_hold_ownership_lost")
    else if h.enabled == enabled && h.reason == reason then Ok(s, HoldSet(false, h.revision))
    else
      Ok(s.(hold := Hold(enabled, reason,
                         if enabled then Some(actor) else None,
                         if enabled then attempt else None,
                         h.revision + 1)),
         HoldSet(true, h.revision + 1))
  }

  /** What a command reads besides the tables: the clock, twice for an archive; the run that its query
      returned; and whether the dependencies an enabled job needs are ready. */
  datatype Context = Context(checked: Time, now: Time, pick: Option<nat>, ready: bool)

  /** The mutation the control service runs inside a command. */
  ghost function Mutate(s: State, request: Request, command: nat, c: Context): Result<Response>
    requires Shaped(s)
  {
    var Request(op, expected, actor) := request;
    match op
    case CreateFromTemplate(t, schedule) => CreateJob(s, t, schedule, c.now)
    case SetGlobalHold(enabled, reason, attempt) => SetHold(s, enabled, reason, actor, attempt, expected)
    case _ =>
      if s.hold.enabled then Err("automation_global_hold")
      else if op.job >= |s.jobs| || s.jobs[op.job].archived then Err("automation_job_not_found")
      else if s.jobs[op.job].template != CrmDigest then Err("automation_role_control_required")
      else
        match op
        case SetEnabled(job, enabled) =>
          if enabled && !c.ready then Err("automation_not_ready")
          else SetJobEnabled(s, job, enabled, expected, c.now)
        case SetSchedule(job, schedule) => SetJobSchedule(s, job, schedule, expected, c.now)
        case RunNow(job) => EnqueueRun(s, job, command, expected, c.now, c.pick)
        case TestNotification(job) => EnqueueTest(s, job, command, expected, c.now)
        case Archive(job) => ArchiveJob(s, job, expected, c.checked, c.now)
  }

  predicate Named(c: Command, source: ActorKind, key: string) {
    c.source == source && c.key == key
  }

  predicate HasCommand(commands: seq<Command>, source: ActorKind, key: string) {
    exists i :: 0 <= i < |commands| && Named(commands[i], source, key)
  }

  /** The index of the recorded command with this name. */
  ghost function FindCommand(commands: seq<Command>, source: ActorKind, key: string): (i: nat)
    requires HasCommand(commands, source, key)
    ensures i < |commands| && Named(commands[i], source, key)
  {
    var i :| 0 <= i < |commands| && Named(commands[i], source, key);
    i
  }

  /** A recorded command is answered from its record.  A new one is recorded, runs its mutation, and
      keeps the response; when the mutation fails the record goes with it. */
  ghost function Execute(s: State, key: string, request: Request, c: Context): Result<Response>
    requires Shaped(s)
  {
    var source := request.actor.kind;
    if request.op.SetGlobalHold? && source != System then Err("automation_permission_denied")
    else if HasCommand(s.commands, source, key) then
      var row := s.commands[FindCommand(s.commands, source, key)];
      if row.request != request then Err("idempotency_key_conflict") else Ok(s, row.response)
    else
      match Mutate(s, request, |s.commands|, c)
      case Err(code) => Err(code)
      case Ok(s', response) =>
        Ok(s'.(commands := s.commands + [Command(source, key, request, response)]), response)
  }

  // ----- Reconciliation

  predicate OutOfSync(s: State, j: nat)
    requires Shaped(s) && j < |s.jobs|
  {
    !s.jobs[j].archived && s.jobs[j].revision != s.runtimes[j].applied
  }

  ghost predicate OldestOutOfSync(s: State, pick: Option<nat>)
    requires Shaped(s)
  {
    match pick
    case None => forall j | 0 <= j < |s.jobs| :: !OutOfSync(s, j)
    case Some(j) =>
      && j < |s.jobs|
      && OutOfSync(s, j)
      && forall k | 0 <= k < |s.jobs| && OutOfSync(s, k) :: s.jobs[j].updatedAt <= s.jobs[k].updatedAt
  }

  datatype Reconciled = Nothing | Blocked(job: nat) | Applied(job: nat)

  function NextScheduled(cal: Calendar, base: Time, delay: int, schedule: Schedule): Time {
    cal.next(base + delay, schedule)
  }

  ghost function Reconcile(cal: Calendar, s: State, now: Time, pick: Option<nat>): (State, Reconciled)
    requires Shaped(s)
  {
    if s.hold.enabled || !OldestOutOfSync(s, pick) || pick.None? then (s, Nothing)
    else
      var j := pick.value;
      var job, rt := s.jobs[j], s.runtimes[j];
      if LeaseActive(rt, now) then
        if job.desiredOn then (s, Blocked(j))
        else (s.(runtimes := s.runtimes[j := rt.(actual := Stopping, nextRun := None)]), Blocked(j))
      else if job.desiredOn then
        var next := NextScheduled(cal, now, job.schedule.everySeconds, job.schedule);
        var rt' := rt.(actual := if rt.incident.Some? then Errored else Idle, nextRun := Some(next), applied := job.revision);
        (s.(runtimes := s.runtimes[j := rt']), Applied(j))
      else
        (s.(runtimes := s.runtimes[j := rt.(actual := Disabled, nextRun := None, applied := job.revision)],
            runs := CancelQueued(s.runs, j, "automation_disabled")),
         Applied(j))
  }

  // ----- Claims of runs

  function FailExpired(runs: seq<Run>, job: nat, fence: nat): (r: seq<Run>)
    ensures |r| == |runs|
    ensures forall i | 0 <= i < |runs| ::
              r[i] == if runs[i].job == job && runs[i].status == Active && runs[i].grant.Some? && runs[i].grant.value.fence == fence
                      then runs[i].(status := Failed, result := Some("automation_lease_expired")) else runs[i]
  {
    seq(|runs|, i requires 0 <= i < |runs| =>
      if runs[i].job == job && runs[i].status == Active && runs[i].grant.Some? && runs[i].grant.value.fence == fence
      then runs[i].(status := Failed, result := Some("automation_lease_expired")) else runs[i])
  }

  predicate Expired(rt: Runtime, now: Time) {
    rt.lease.Some? && rt.lease.value.until <= now
  }

  /** Fails the expired claim of one job and opens an incident unless one is open already. */
  function ExpireClaim(s: State, j: nat, now: Time): (s': State)
    requires Shaped(s) && j < |s.jobs|
  {
    var rt := s.runtimes[j];
    var open := rt.incident.Some?;
    var incident := if open then rt.incident.value else Incident(s.incidents, "automation_lease_expired");
    s.(runs := FailExpired(s.runs, j, rt.fence),
       outbox := if open then s.outbox
                 else s.outbox + [NewRow(j, None, ErrorAlert(incident.id, "automation_lease_expired"), now)],
       incidents := if open then s.incidents else s.incidents + 1,
       runtimes := s.runtimes[j := rt.(actual := Errored, lease := None,
                                       errorCode := Some("automation_lease_expired"),
                                       incident := Some(incident))])
  }

  /** The sweep over the jobs from `j` on. */
  function Sweep(s: State, now: Time, j: nat): (s': State)
    requires Shaped(s) && j <= |s.jobs|
    ensures Shaped(s') && s'.jobs == s.jobs
    decreases |s.jobs| - j
  {
    if j == |s.jobs| then s
    else Sweep(if Expired(s.runtimes[j], now) then ExpireClaim(s, j, now) else s, now, j + 1)
  }

  predicate Claimable(s: State, now: Time, r: nat)
    requires Shaped(s) && r < |s.runs|
  {
    var run := s.runs[r];
    && run.status == Queued
    && !s.jobs[run.job].archived
    && s.jobs[run.job].desiredOn
    && LeaseFree(s.runtimes[run.job].lease, now)
  }

  ghost predicate FirstClaimable(s: State, now: Time, pick: Option<nat>)
    requires Shaped(s)
  {
    match pick
    case None => forall q | 0 <= q < |s.runs| :: !Claimable(s, now, q)
    case Some(r) =>
      && r < |s.runs|
      && Claimable(s, now, r)
      && forall q | 0 <= q < |s.runs| && Claimable(s, now, q) :: s.runs[r].requestedAt <= s.runs[q].requestedAt
  }

  predicate Due(s: State, now: Time, j: nat)
    requires Shaped(s) && j < |s.jobs|
  {
    var job, rt := s.jobs[j], s.runtimes[j];
    && job.desiredOn
    && !job.archived
    && rt.applied == job.revision
    && rt.nextRun.Some? && rt.nextRun.value <= now
    && LeaseFree(rt.lease, now)
  }

  /** The due jobs in the order of their times, cut after MAX_JOBS rows. */
  ghost predicate DueOrder(s: State, now: Time, due: seq<nat>)
    requires Shaped(s)
  {
    && |due| <= MAX_JOBS
    && (forall i | 0 <= i < |due| :: due[i] < |s.jobs| && Due(s, now, due[i]))
    && (forall i, k | 0 <= i < k < |due| ::
          due[i] != due[k] && s.runtimes[due[i]].nextRun.value <= s.runtimes[due[k]].nextRun.value)
    && (forall j | 0 <= j < |s.jobs| && Due(s, now, j) && j !in due ::
          |due| == MAX_JOBS && forall i | 0 <= i < |due| :: s.runtimes[due[i]].nextRun.value <= s.runtimes[j].nextRun.value)
  }

  /** Walks the due jobs: those outside their window are put off, the first inside it is chosen. */
  function Defer(cal: Calendar, s: State, now: Time, due: seq<nat>): (r: (State, Option<nat>))
    requires Shaped(s) && forall i | 0 <= i < |due| :: due[i] < |s.jobs|
    ensures Shaped(r.0) && r.0.jobs == s.jobs && r.0.runs == s.runs
    ensures r.1.Some? ==> r.1.value in due
    decreases |due|
  {
    if due == [] then (s, None)
    else
      var j := due[0];
      if cal.active(now, s.jobs[j].schedule) then (s, Some(j))
      else
        var rt := s.runtimes[j].(nextRun := Some(cal.next(now, s.jobs[j].schedule)));
        Defer(cal, s.(runtimes := s.runtimes[j := rt]), now, due[1..])
  }

  datatype Claim = Claim(run: nat, job: nat, owner: Owner, revision: nat, token: nat)

  /** Hands the queued run `r` to `owner` under the next fencing token of its job. */
  function GrantRun(s: State, r: nat, owner: Owner, until: Time): (State, Claim)
    requires Shaped(s) && r < |s.runs|
  {
    var j := s.runs[r].job;
    var rt := s.runtimes[j];
    var token := rt.fence + 1;
    var revision := s.jobs[j].revision;
    (s.(runtimes := s.runtimes[j := rt.(actual := Running, lease := Some(Lease(owner, until)), fence := token, errorCode := None)],
        runs := s.runs[r := s.runs[r].(status := Active, grant := Some(Grant(owner, token, revision)))]),
     Claim(r, j, owner, revision, token))
  }

  /** The run a claim is about to grant, after the sweep and the search for one. */
  ghost function SelectRun(cal: Calendar, s: State, now: Time, pick: Option<nat>, due: seq<nat>): (r: (State, Option<nat>))
    requires Shaped(s)
    ensures Shaped(r.0) && (r.1.Some? ==> r.1.value < |r.0.runs|)
  {
    var s1 := Sweep(s, now, 0);
    if !FirstClaimable(s1, now, pick) then (s1, None)
    else if pick.Some? then (s1, pick)
    else if !DueOrder(s1, now, due) then (s1, None)
    else
      var (s2, chosen) := Defer(cal, s1, now, due);
      if chosen.None? then (s2, None)
      else
        (s2.(runs := s2.runs + [Run(chosen.value, Scheduled, Queued, now, None, 0, None)]), Some(|s2.runs|))
  }

  ghost function ClaimRun(cal: Calendar, s: State, owner: Owner, seconds: int, now: Time, pick: Option<nat>, due: seq<nat>)
    : (State, Option<Claim>)
    requires Shaped(s)
  {
    if !(10 <= seconds <= 600) || s.hold.enabled then (s, None)
    else
      var (s1, r) := SelectRun(cal, s, now, pick, due);
      if r.None? then (s1, None)
      else
        var (s2, claim) := GrantRun(s1, r.value, owner, now + seconds);
        (s2, Some(claim))
  }

  predicate RunClaimCurrent(s: State, c: Claim, now: Time)
    requires Shaped(s)
  {
    && c.run < |s.runs| && c.job < |s.jobs|
    && IsClaimOf(s.runs[c.run], c.job, c.owner, c.token)
    && Holds(s.runtimes[c.job], c.owner, c.token)
    && !s.jobs[c.job].archived && s.jobs[c.job].desiredOn && s.jobs[c.job].revision == c.revision
    && !s.hold.enabled
    && LeaseActive(s.runtimes[c.job], now)
  }

  /** The claim names a run that is active under it and whose job is held under it. */
  predicate Owns(s: State, job: nat, run: nat, owner: Owner, token: nat)
    requires Shaped(s)
  {
    && job < |s.jobs| && run < |s.runs|
    && Holds(s.runtimes[job], owner, token)
    && IsClaimOf(s.runs[run], job, owner, token)
  }

  function Settled(cal: Calendar, s: State, job: nat, now: Time, delay: int): Option<Time>
    requires job < |s.jobs|
  {
    if s.jobs[job].desiredOn then Some(NextScheduled(cal, now, delay, s.jobs[job].schedule)) else None
  }

  function CancelRun(cal: Calendar, s: State, job: nat, run: nat, owner: Owner, token: nat, code: Code, now: Time): (State, bool)
    requires Shaped(s)
  {
    if !Owns(s, job, run, owner, token) then (s, false)
    else
      var rt := s.runtimes[job];
      var on := s.jobs[job].desiredOn;
      (s.(runs := s.runs[run := s.runs[run].(status := Cancelled, result := Some(code))],
          runtimes := s.runtimes[job := rt.(
            actual := if on then (if rt.incident.Some? then Errored else Idle) else Disabled,
            nextRun := Settled(cal, s, job, now, s.jobs[job].schedule.everySeconds),
            lease := None,
            applied := s.jobs[job].revision)]),
       true)
  }

  /** A heartbeat extends the lease before it looks at the run, and reports both. */
  function Heartbeat(s: State, job: nat, run: nat, owner: Owner, token: nat, seconds: int, now: Time): (State, bool)
    requires Shaped(s)
  {
    if !(job < |s.jobs| && Holds(s.runtimes[job], owner, token) && LeaseActive(s.runtimes[job], now)) then (s, false)
    else
      (s.(runtimes := s.runtimes[job := s.runtimes[job].(lease := Some(Lease(owner, now + seconds)))]),
       run < |s.runs| && IsClaimOf(s.runs[run], job, owner, token))
  }

  /** What a finished run does to the incident of its job. */
  function AfterRun(s: State, job: nat, succeeded: bool, code: Code): Option<Incident>
    requires Shaped(s) && job < |s.jobs|
  {
    var open := s.runtimes[job].incident;
    if succeeded then None else if open.Some? then open else Some(Incident(s.incidents, code))
  }

  /** The alert a finished run queues: one when it opens an incident and one when it closes it. */
  function AlertOf(s: State, job: nat, run: nat, succeeded: bool, code: Code, now: Time): seq<OutboxRow>
    requires Shaped(s) && job < |s.jobs|
  {
    var open := s.runtimes[job].incident;
    if !succeeded && open.None? then [NewRow(job, Some(run), ErrorAlert(s.incidents, code), now)]
    else if succeeded && open.Some? then [NewRow(job, Some(run), RecoveryAlert(open.value.id, open.value.code), now)]
    else []
  }

  function FinishRun(cal: Calendar, s: State, job: nat, run: nat, owner: Owner, token: nat,
                     succeeded: bool, code: Code, delay: Option<int>, now: Time): (State, bool)
    requires Shaped(s)
  {
    if (delay.Some? && !(5 <= delay.value <= 86400)) || !Owns(s, job, run, owner, token) then (s, false)
    else
      var rt := s.runtimes[job];
      var wait := if delay.Some? then delay.value else s.jobs[job].schedule.everySeconds;
      (s.(runs := s.runs[run := s.runs[run].(status := if succeeded then Succeeded else Failed, result := Some(code))],
          outbox := s.outbox + AlertOf(s, job, run, succeeded, code, now),
          incidents := if !succeeded && rt.incident.None? then s.incidents + 1 else s.incidents,
          runtimes := s.runtimes[job := rt.(
            actual := if !succeeded then Errored else if s.jobs[job].desiredOn then Idle else Disabled,
            nextRun := Settled(cal, s, job, now, wait),
            lease := None,
            errorCode := if succeeded then None else Some(code),
            incident := AfterRun(s, job, succeeded, code),
            applied := s.jobs[job].revision)]),
       true)
  }

  // ----- Cursors

  function CursorOf(s: State, job: nat, name: CursorName): Cursor {
    if (job, name) in s.cursors then s.cursors[(job, name)] else Cursor(None, 0)
  }

  function UpdateCursor(s: State, job: nat, name: CursorName, value: Option<CursorValue>, expected: nat,
                        owner: Owner, token: nat, now: Time): Result<nat>
    requires Shaped(s)
  {
    if !(job < |s.jobs| && Holds(s.runtimes[job], owner, token) && LeaseActive(s.runtimes[job], now))
    then Err("automation_fencing_conflict")
    else
      var revision := CursorOf(s, job, name).revision;
      if revision != expected then Err("automation_cursor_revision_conflict")
      else Ok(s.(cursors := s.cursors[(job, name) := Cursor(value, revision + 1)]), revision + 1)
  }

  // ----- The outbox

  predicate Deliverable(s: State, now: Time, o: nat)
    requires Shaped(s) && o < |s.outbox|
  {
    var row := s.outbox[o];
    || (&& row.status in {Pending, Undelivered}
        && row.nextAttempt <= now
        && LeaseFree(row.lease, now)
        && !s.jobs[row.job].archived
        && (s.jobs[row.job].desiredOn || row.notice.TestNotice?))
    || (row.status == InTransit && row.lease.Some? && row.lease.value.until <= now)
  }

  /** Uncertain deliveries go first, then the earliest attempt, then the oldest intent. */
  predicate Precedes(a: OutboxRow, b: OutboxRow) {
    var ra, rb := if a.status == InTransit then 0 else 1, if b.status == InTransit then 0 else 1;
    ra < rb || (ra == rb && (a.nextAttempt < b.nextAttempt || (a.nextAttempt == b.nextAttempt && a.createdAt <= b.createdAt)))
  }

  ghost predicate FirstDeliverable(s: State, now: Time, pick: Option<nat>)
    requires Shaped(s)
  {
    match pick
    case None => forall q | 0 <= q < |s.outbox| :: !Deliverable(s, now, q)
    case Some(o) =>
      && o < |s.outbox|
      && Deliverable(s, now, o)
      && forall q | 0 <= q < |s.outbox| && Deliverable(s, now, q) :: Precedes(s.outbox[o], s.outbox[q])
  }

  datatype Delivery = Delivery(row: nat, owner: Owner, revision: nat, recovery: bool, token: nat)

  ghost function ClaimOutbox(s: State, owner: Owner, seconds: int, now: Time, pick: Option<nat>): (State, Option<Delivery>)
    requires Shaped(s)
  {
    if !(10 <= seconds <= 600) || s.hold.enabled || !FirstDeliverable(s, now, pick) || pick.None? then (s, None)
    else
      var o := pick.value;
      var row := s.outbox[o];
      var token := row.fence + 1;
      var recovery := row.status == InTransit;
      var lease := Some(Lease(owner, now + seconds));
      var row' := if recovery then row.(lease := lease, fence := token)
                  else row.(status := InTransit, attempts := row.attempts + 1, lease := lease, fence := token);
      (s.(outbox := s.outbox[o := row']),
       Some(Delivery(o, owner, s.jobs[row.job].revision, recovery, token)))
  }

  predicate DeliveryCurrent(s: State, d: Delivery, now: Time)
    requires Shaped(s)
  {
    && InHand(s, d.row, d.owner, d.token, now)
    && var row := s.outbox[d.row];
    && !s.jobs[row.job].archived && s.jobs[row.job].revision == d.revision
    && (s.jobs[row.job].desiredOn || row.notice.TestNotice?)
    && !s.hold.enabled
  }

  /** The row is in transit under this claim and the lease still runs. */
  predicate InHand(s: State, o: nat, owner: Owner, token: nat, now: Time) {
    && o < |s.outbox|
    && var row := s.outbox[o];
    && row.status == InTransit
    && row.lease.Some? && row.lease.value.owner == owner && row.lease.value.until > now
    && row.fence == token
  }

  function CancelDelivery(s: State, o: nat, owner: Owner, token: nat, code: Code, now: Time): (State, bool) {
    if !InHand(s, o, owner, token, now) then (s, false)
    else (s.(outbox := s.outbox[o := s.outbox[o].(status := Dropped, result := Some(code), lease := None)]), true)
  }

  /** Leaves an uncertain delivery visible and out of reach of every later claim. */
  function BlockDelivery(s: State, o: nat, owner: Owner, token: nat, code: Code, now: Time): (State, bool) {
    if !InHand(s, o, owner, token, now) then (s, false)
    else (s.(outbox := s.outbox[o := s.outbox[o].(result := Some(code), lease := None)]), true)
  }

  function FinishDelivery(s: State, o: nat, owner: Owner, token: nat, sent: bool, code: Code, retry: int, now: Time): (State, bool) {
    if !(10 <= retry <= 86400) || !InHand(s, o, owner, token, now) then (s, false)
    else
      (s.(outbox := s.outbox[o := s.outbox[o].(
         status := if sent then Sent else Undelivered,
         result := Some(code),
         nextAttempt := if sent then now else now + retry,
         lease := None)]),
       true)
  }

  // ----- One step of the whole store

  datatype Action =
    | DoCommand(key: string, request: Request, context: Context)
    | DoReconcile(now: Time, pick: Option<nat>)
    | DoClaimRun(owner: Owner, seconds: int, now: Time, pick: Option<nat>, due: seq<nat>)
    | DoCancelRun(job: nat, run: nat, owner: Owner, token: nat, code: Code, now: Time)
    | DoHeartbeat(job: nat, run: nat, owner: Owner, token: nat, seconds: int, now: Time)
    | DoFinishRun(job: nat, run: nat, owner: Owner, token: nat, succeeded: bool, code: Code, delay: Option<int>, now: Time)
    | DoUpdateCursor(job: nat, name: CursorName, value: Option<CursorValue>, expected: nat, owner: Owner, token: nat, now: Time)
    | DoClaimOutbox(owner: Owner, seconds: int, now: Time, pick: Option<nat>)
    | DoCancelDelivery(row: nat, owner: Owner, token: nat, code: Code, now: Time)
    | DoBlockDelivery(row: nat, owner: Owner, token: nat, code: Code, now: Time)
    | DoFinishDelivery(row: nat, owner: Owner, token: nat, sent: bool, code: Code, retry: int, now: Time)

  ghost function Kept<T>(s: State, r: Result<T>): State {
    match r case Ok(s', _) => s' case Err(_) => s
  }

  ghost function Step(cal: Calendar, s: State, a: Action): State
    requires Shaped(s)
  {
    match a
    case DoCommand(key, request, c) => Kept(s, Execute(s, key, request, c))
    case DoReconcile(now, pick) => Reconcile(cal, s, now, pick).0
    case DoClaimRun(owner, seconds, now, pick, due) => ClaimRun(cal, s, owner, seconds, now, pick, due).0
    case DoCancelRun(job, run, owner, token, code, now) => CancelRun(cal, s, job, run, owner, token, code, now).0
    case DoHeartbeat(job, run, owner, token, seconds, now) => Heartbeat(s, job, run, owner, token, seconds, now).0
    case DoFinishRun(job, run, owner, token, succeeded, code, delay, now) =>
      FinishRun(cal, s, job, run, owner, token, succeeded, code, delay, now).0
    case DoUpdateCursor(job, name, value, expected, owner, token, now) =>
      Kept(s, UpdateCursor(s, job, name, value, expected, owner, token, now))
    case DoClaimOutbox(owner, seconds, now, pick) => ClaimOutbox(s, owner, seconds, now, pick).0
    case DoCancelDelivery(row, owner, token, code, now) => CancelDelivery(s, row, owner, token, code, now).0
    case DoBlockDelivery(row, owner, token, code, now) => BlockDelivery(s, row, owner, token, code, now).0
    case DoFinishDelivery(row, owner, token, sent, code, retry, now) =>
      FinishDelivery(s, row, owner, token, sent, code, retry, now).0
  }
}

/** Every transaction keeps the invariant of the store, at any clock reading and for any caller. */
module Preservation {
  import opened Options
  import opened Tables
  import opened Steps
  import opened Invariants

  // ----- Frames

  /** A lease keeps its holder and a grant its token when only queued rows come, go or end. */
  lemma GrantedFrame(s: State, t: State)
    requires Shaped(s) && Shaped(t) && Granted(s)
    requires |s.jobs| <= |t.jobs| && |s.runs| <= |t.runs|
    requires forall j | 0 <= j < |s.jobs| ::
               && s.runtimes[j].lease.None? == t.runtimes[j].lease.None?
               && (s.runtimes[j].lease.Some? ==> s.runtimes[j].lease.value.owner == t.runtimes[j].lease.value.owner)
               && s.runtimes[j].fence == t.runtimes[j].fence
               && s.jobs[j].revision <= t.jobs[j].revision
    requires forall j | |s.jobs| <= j < |t.jobs| :: t.runtimes[j].lease.None?
    requires forall i | 0 <= i < |s.runs| ::
               && t.runs[i].job == s.runs[i].job
               && t.runs[i].grant == s.runs[i].grant
               && (s.runs[i].status == Active <==> t.runs[i].status == Active)
               && (t.runs[i].status == Queued ==> s.runs[i].status == Queued)
    requires forall i | |s.runs| <= i < |t.runs| :: t.runs[i].status == Queued && t.runs[i].grant.None?
    ensures Granted(t)
  {
    forall j | 0 <= j < |t.jobs| && t.runtimes[j].lease.Some?
      ensures HasHolder(t, j)
    {
      assert HasHolder(s, j);
      var i :| 0 <= i < |s.runs| && IsClaimOf(s.runs[i], j, s.runtimes[j].lease.value.owner, s.runtimes[j].fence);
      assert IsClaimOf(t.runs[i], j, t.runtimes[j].lease.value.owner, t.runtimes[j].fence);
    }
    forall i | 0 <= i < |t.runs| && t.runs[i].status == Active ensures HeldByRun(t, i) { assert HeldByRun(s, i); }
    forall i | 0 <= i < |t.runs| && t.runs[i].grant.Some? ensures GrantKnown(t, i) { assert GrantKnown(s, i); }
  }

  /** Only job `j` and its queued runs change. */
  lemma AgreedFrame(s: State, t: State, j: nat)
    requires Shaped(s) && Shaped(t) && Agreed(s) && j < |s.jobs| == |t.jobs| && |t.runs| == |s.runs|
    requires forall k | 0 <= k < |s.jobs| && k != j ::
               t.jobs[k] == s.jobs[k] && t.runtimes[k].applied == s.runtimes[k].applied && t.runtimes[k].nextRun == s.runtimes[k].nextRun
    requires forall i | 0 <= i < |s.runs| ::
               t.runs[i].job == s.runs[i].job && (t.runs[i].status == Queued ==> s.runs[i].status == Queued)
    requires JobAgrees(t, j)
    requires t.jobs[j].desiredOn || forall i | 0 <= i < |t.runs| && t.runs[i].job == j :: t.runs[i].status != Queued
    ensures Agreed(t)
  {
    forall k | 0 <= k < |t.jobs| ensures JobAgrees(t, k) { assert JobAgrees(s, k); }
  }

  /** A run joins the queue of a job that has none waiting. */
  lemma AgreedAppend(s: State, t: State, run: Run)
    requires Shaped(s) && Shaped(t) && Agreed(s) && t.jobs == s.jobs && t.runs == s.runs + [run]
    requires forall k | 0 <= k < |s.jobs| :: t.runtimes[k].applied == s.runtimes[k].applied && t.runtimes[k].nextRun == s.runtimes[k].nextRun
    requires run.job < |s.jobs| && s.jobs[run.job].desiredOn
    requires forall i | 0 <= i < |s.runs| && s.runs[i].job == run.job :: s.runs[i].status != Queued
    ensures Agreed(t)
  {
    forall k | 0 <= k < |t.jobs| ensures JobAgrees(t, k) { assert JobAgrees(s, k); }
  }

  lemma AgreedSame(s: State, t: State)
    requires Shaped(s) && Shaped(t) && Agreed(s) && t.jobs == s.jobs && |t.runs| == |s.runs|
    requires forall k | 0 <= k < |s.jobs| :: t.runtimes[k].applied == s.runtimes[k].applied && t.runtimes[k].nextRun == s.runtimes[k].nextRun
    requires forall i | 0 <= i < |s.runs| ::
               t.runs[i].job == s.runs[i].job && (t.runs[i].status == Queued ==> s.runs[i].status == Queued)
    ensures Agreed(t)
  {
    forall k | 0 <= k < |t.jobs| ensures JobAgrees(t, k) { assert JobAgrees(s, k); }
  }

  lemma AgreesAt(s: State, j: nat)
    requires Shaped(s) && Agreed(s) && j < |s.jobs|
    ensures JobAgrees(s, j)
    ensures !s.jobs[j].desiredOn ==> forall i | 0 <= i < |s.runs| && s.runs[i].job == j :: s.runs[i].status != Queued
  {
  }

  // ----- Commands on jobs

  lemma CreateJobKeeps(s: State, t: Template, schedule: Schedule, now: Time)
    requires Valid(s)
    ensures var r := CreateJob(s, t, schedule, now);
            r.Ok? ==> Valid(r.state) && r.state.commands == s.commands
  {
    hide Granted, Alerted, KeysUnique, CommandsUnique, Answered, RunNows;
    var r := CreateJob(s, t, schedule, now);
    if r.Ok? {
      GrantedFrame(s, r.state);
      AlertedFrame(s, r.state);
      forall k | 0 <= k < |r.state.jobs| ensures JobAgrees(r.state, k) { assert k < |s.jobs| ==> JobAgrees(s, k); }
    }
  }

  lemma SetJobEnabledKeeps(s: State, job: nat, enabled: bool, expected: int, now: Time)
    requires Valid(s)
    ensures var r := SetJobEnabled(s, job, enabled, expected, now);
            r.Ok? ==> Valid(r.state) && r.state.commands == s.commands
  {
    hide Granted, Agreed, Alerted, KeysUnique, CommandsUnique, Answered, RunNows;
    var r := SetJobEnabled(s, job, enabled, expected, now);
    if r.Ok? && r.value == Changed(true) {
      AgreesAt(s, job);
      GrantedFrame(s, r.state);
      AgreedFrame(s, r.state, job);
      AlertedFrame(s, r.state);
      AnsweredSame(s.runs, r.state.runs);
    }
  }

  lemma SetJobScheduleKeeps(s: State, job: nat, schedule: Schedule, expected: int, now: Time)
    requires Valid(s)
    ensures var r := SetJobSchedule(s, job, schedule, expected, now);
            r.Ok? ==> Valid(r.state) && r.state.commands == s.commands
  {
    hide Granted, Agreed, Alerted, KeysUnique, CommandsUnique, Answered, RunNows;
    var r := SetJobSchedule(s, job, schedule, expected, now);
    if r.Ok? && r.value == Changed(true) {
      AgreesAt(s, job);
      GrantedFrame(s, r.state);
      AgreedFrame(s, r.state, job);
      AlertedFrame(s, r.state);
    }
  }

  lemma ArchiveJobKeeps(s: State, job: nat, expected: int, checked: Time, now: Time)
    requires Valid(s)
    ensures var r := ArchiveJob(s, job, expected, checked, now);
            r.Ok? ==> Valid(r.state) && r.state.commands == s.commands
  {
    hide Granted, Agreed, Alerted, KeysUnique, CommandsUnique, Answered, RunNows;
    var r := ArchiveJob(s, job, expected, checked, now);
    if r.Ok? {
      AgreesAt(s, job);
      GrantedFrame(s, r.state);
      AgreedFrame(s, r.state, job);
      AlertedFrame(s, r.state);
      AnsweredSame(s.runs, r.state.runs);
    }
  }

  lemma EnqueueTestAlerts(s: State, t: State, row: OutboxRow)
    requires Shaped(s) && Shaped(t) && Alerted(s) && row.notice.TestNotice?
    requires t == s.(outbox := s.outbox + [row])
    ensures Alerted(t)
  {
    forall j | 0 <= j < |t.jobs|
      ensures Alternating(AlertsOf(t.outbox, j), OpenIncident(t.runtimes[j]))
    {
      AlertsAppend(s.outbox, row, j);
      assert AlertsOf(s.outbox, j) + [] == AlertsOf(s.outbox, j);
    }
  }

  lemma EnqueueTestKeeps(s: State, job: nat, expected: int, now: Time)
    requires Valid(s)
    ensures var r := EnqueueTest(s, job, |s.commands|, expected, now);
            r.Ok? ==> var t := r.state;
              && t.commands == s.commands && Shaped(t) && Granted(t) && Agreed(t) && Alerted(t)
              && Answered(t.runs) == Answered(s.runs)
              && forall c :: KeysUnique(t.(commands := s.commands + [c]))
  {
    hide Granted, Agreed, Alerted;
    var r := EnqueueTest(s, job, |s.commands|, expected, now);
    if r.Ok? {
      var t := r.state;
      GrantedFrame(s, t);
      AgreedSame(s, t);
      EnqueueTestAlerts(s, t, t.outbox[|s.outbox|]);
    }
  }

  lemma NoneQueued(s: State, job: nat, now: Time)
    requires Shaped(s) && job < |s.jobs| && FirstCovering(s, job, now, None)
    ensures forall i | 0 <= i < |s.runs| && s.runs[i].job == job :: s.runs[i].status != Queued
  {
    forall i | 0 <= i < |s.runs| && s.runs[i].job == job
      ensures s.runs[i].status != Queued
    {
      assert !Covers(s, job, now, i);
    }
  }

  lemma CoveringIsRun(s: State, job: nat, now: Time, r: nat)
    requires Shaped(s) && job < |s.jobs| && FirstCovering(s, job, now, Some(r))
    ensures r < |s.runs|
  {
  }

  lemma EnqueueRunKeeps(s: State, job: nat, expected: int, now: Time, pick: Option<nat>)
    requires Valid(s)
    ensures var r := EnqueueRun(s, job, |s.commands|, expected, now, pick);
            r.Ok? ==> var t := r.state;
              && t.commands == s.commands && Shaped(t) && Granted(t) && Agreed(t) && Alerted(t) && KeysUnique(t)
              && Answered(t.runs) == Answered(s.runs) + 1
  {
    hide Granted, Agreed, Alerted, KeysUnique, CommandsUnique, Answered, RunNows, FirstCovering;
    var r := EnqueueRun(s, job, |s.commands|, expected, now, pick);
    if r.Ok? {
      var t := r.state;
      if pick.Some? { CoveringIsRun(s, job, now, pick.value); }
      GrantedFrame(s, t);
      AlertedFrame(s, t);
      if pick.Some? {
        AgreedSame(s, t);
        AnsweredUpdate(s.runs, pick.value, t.runs[pick.value]);
      } else {
        NoneQueued(s, job, now);
        AgreedAppend(s, t, t.runs[|s.runs|]);
        AnsweredAppend(s.runs, t.runs[|s.runs|]);
      }
    }
  }

  lemma SetHoldKeeps(s: State, enabled: bool, reason: Option<HoldReason>, actor: Actor, attempt: Option<nat>, expected: int)
    requires Valid(s)
    ensures var r := SetHold(s, enabled, reason, actor, attempt, expected);
            r.Ok? ==> Valid(r.state) && r.state.commands == s.commands
  {
    hide Granted, Agreed, Alerted, KeysUnique, CommandsUnique, Answered, RunNows;
    var r := SetHold(s, enabled, reason, actor, attempt, expected);
    if r.Ok? { GrantedFrame(s, r.state); AgreedSame(s, r.state); AlertedFrame(s, r.state); }
  }

  lemma RunNowsAppend(a: seq<Command>, c: Command)
    ensures RunNows(a + [c]) == RunNows(a) + if c.request.op.RunNow? then 1 else 0
  {
    assert (a + [c])[..|a|] == a;
  }

  lemma MutateKeeps(s: State, request: Request, c: Context)
    requires Valid(s)
    ensures var r := Mutate(s, request, |s.commands|, c);
            r.Ok? ==> var t := r.state;
              && t.commands == s.commands && Shaped(t) && Granted(t) && Agreed(t) && Alerted(t)
              && Answered(t.runs) == Answered(s.runs) + (if request.op.RunNow? then 1 else 0)
              && forall row :: KeysUnique(t.(commands := s.commands + [row]))
  {
    hide Granted, Agreed, Alerted, KeysUnique, CommandsUnique, Answered, RunNows,
         CreateJob, SetHold, SetJobEnabled, SetJobSchedule, EnqueueRun, EnqueueTest, ArchiveJob;
    var Request(op, expected, actor) := request;
    match op {
      case CreateFromTemplate(t, schedule) => CreateJobKeeps(s, t, schedule, c.now);
      case SetGlobalHold(enabled, reason, attempt) => SetHoldKeeps(s, enabled, reason, actor, attempt, expected);
      case SetEnabled(job, enabled) => SetJobEnabledKeeps(s, job, enabled, expected, c.now);
      case SetSchedule(job, schedule) => SetJobScheduleKeeps(s, job, schedule, expected, c.now);
      case RunNow(job) => EnqueueRunKeeps(s, job, expected, c.now, c.pick);
      case TestNotification(job) => EnqueueTestKeeps(s, job, expected, c.now);
      case Archive(job) => ArchiveJobKeeps(s, job, expected, c.checked, c.now);
    }
    var r := Mutate(s, request, |s.commands|, c);
    if r.Ok? && !op.TestNotification? { KeysWithCommand(r.state); }
  }

  lemma KeysWithCommand(s: State)
    requires KeysUnique(s)
    ensures forall row :: KeysUnique(s.(commands := s.commands + [row]))
  {
  }

  lemma ExecuteKeeps(s: State, key: string, request: Request, c: Context)
    requires Valid(s)
    ensures Valid(Kept(s, Execute(s, key, request, c)))
  {
    hide Granted, Agreed, Alerted, KeysUnique, Answered, RunNows, Mutate;
    MutateKeeps(s, request, c);
    var r := Execute(s, key, request, c);
    if r.Ok? && !HasCommand(s.commands, request.actor.kind, key) {
      var m := Mutate(s, request, |s.commands|, c).state;
      var row := r.state.commands[|s.commands|];
      assert r.state == m.(commands := s.commands + [row]);
      RunNowsAppend(s.commands, row);
      GrantedFrame(m, r.state);
      AgreedSame(m, r.state);
      AlertedFrame(m, r.state);
    }
  }

  // ----- Reconciliation

  lemma ReconcileKeeps(cal: Calendar, s: State, now: Time, pick: Option<nat>)
    requires Valid(s)
    ensures Valid(Reconcile(cal, s, now, pick).0)
  {
    hide Granted, Agreed, Alerted, KeysUnique, CommandsUnique, Answered, RunNows;
    var (t, r) := Reconcile(cal, s, now, pick);
    if r != Nothing {
      AgreesAt(s, r.job);
      GrantedFrame(s, t);
      AgreedFrame(s, t, r.job);
      AlertedFrame(s, t);
      AnsweredSame(s.runs, t.runs);
    }
  }

  // ----- Claims

  lemma ExpireClaimKeeps(s: State, j: nat, now: Time)
    requires Valid(s) && j < |s.jobs| && Expired(s.runtimes[j], now)
    ensures Valid(ExpireClaim(s, j, now))
  {
    hide Granted, Agreed, Alerted, KeysUnique, CommandsUnique, Answered, RunNows;
    var t := ExpireClaim(s, j, now);
    AnsweredSame(s.runs, t.runs);
    AgreedSame(s, t);
    ExpireClaimGrants(s, j, now);
    ExpireClaimAlerts(s, j, now);
  }

  lemma ExpireClaimGrants(s: State, j: nat, now: Time)
    requires Valid(s) && j < |s.jobs| && Expired(s.runtimes[j], now)
    ensures Granted(ExpireClaim(s, j, now))
  {
    hide Agreed, Alerted, KeysUnique, CommandsUnique;
    var t := ExpireClaim(s, j, now);
    forall k | 0 <= k < |t.jobs| && t.runtimes[k].lease.Some?
      ensures HasHolder(t, k)
    {
      assert HasHolder(s, k);
      var i :| 0 <= i < |s.runs| && IsClaimOf(s.runs[i], k, s.runtimes[k].lease.value.owner, s.runtimes[k].fence);
      assert IsClaimOf(t.runs[i], k, t.runtimes[k].lease.value.owner, t.runtimes[k].fence);
    }
    forall i | 0 <= i < |t.runs| && t.runs[i].status == Active
      ensures HeldByRun(t, i)
    {
      assert HeldByRun(s, i);
    }
    forall i | 0 <= i < |t.runs| && t.runs[i].grant.Some?
      ensures GrantKnown(t, i)
    {
      assert GrantKnown(s, i);
    }
  }

  /** Queues an alert that moves the incident of job `j` on. */
  predicate Pushes(s: State, t: State, j: nat, row: OutboxRow)
    requires Shaped(s) && Shaped(t)
  {
    && j < |s.jobs| == |t.jobs| && row.job == j && t.outbox == s.outbox + [row]
    && (forall k | 0 <= k < |s.jobs| && k != j :: t.runtimes[k].incident == s.runtimes[k].incident)
    && (|| (&& row.notice.ErrorAlert? && row.notice.incident == s.incidents && t.incidents == s.incidents + 1
            && s.runtimes[j].incident.None? && OpenIncident(t.runtimes[j]) == Some(s.incidents))
        || (&& row.notice.RecoveryAlert? && t.incidents == s.incidents
            && OpenIncident(s.runtimes[j]) == Some(row.notice.incident) && t.runtimes[j].incident.None?))
  }

  lemma PushAlternates(s: State, t: State, j: nat, row: OutboxRow, k: nat)
    requires Shaped(s) && Shaped(t) && Pushes(s, t, j, row) && k < |s.jobs|
    requires Alternating(AlertsOf(s.outbox, k), OpenIncident(s.runtimes[k]))
    ensures Alternating(AlertsOf(t.outbox, k), OpenIncident(t.runtimes[k]))
  {
    hide Alternating, AlertsOf;
    AlertsAppend(s.outbox, row, k);
    assert AlertsOf(s.outbox, k) + [] == AlertsOf(s.outbox, k);
    if k == j {
      var a := if row.notice.ErrorAlert? then Alert(ToError, row.notice.incident) else Alert(ToRecovery, row.notice.incident);
      AlternatingPush(AlertsOf(s.outbox, j), OpenIncident(s.runtimes[j]), a);
    }
  }

  lemma PushClosed(s: State, t: State, j: nat, row: OutboxRow, o: nat, k: nat)
    requires Shaped(s) && Shaped(t) && Alerted(s) && Pushes(s, t, j, row)
    requires o < |t.outbox| && k < |t.jobs| && t.outbox[o].notice.RecoveryAlert?
    ensures OpenIncident(t.runtimes[k]) != Some(t.outbox[o].notice.incident)
  {
    hide Alternating, AlertsOf;
    if o < |s.outbox| {
      assert t.outbox[o] == s.outbox[o];
      assert OpenIncident(s.runtimes[k]) != Some(s.outbox[o].notice.incident);
      assert IncidentIn(s.outbox[o].notice).value < s.incidents;
    } else {
      assert t.outbox[o] == row;
    }
  }

  lemma AlertedPush(s: State, t: State, j: nat, row: OutboxRow)
    requires Shaped(s) && Shaped(t) && Alerted(s) && Pushes(s, t, j, row)
    ensures Alerted(t)
  {
    hide Alternating, AlertsOf;
    forall k | 0 <= k < |t.jobs| ensures Alternating(AlertsOf(t.outbox, k), OpenIncident(t.runtimes[k])) {
      PushAlternates(s, t, j, row, k);
    }
    forall o, k | 0 <= o < |t.outbox| && 0 <= k < |t.jobs| && t.outbox[o].notice.RecoveryAlert?
      ensures OpenIncident(t.runtimes[k]) != Some(t.outbox[o].notice.incident)
    {
      PushClosed(s, t, j, row, o, k);
    }
  }

  lemma ExpireClaimAlerts(s: State, j: nat, now: Time)
    requires Valid(s) && j < |s.jobs| && Expired(s.runtimes[j], now)
    ensures Alerted(ExpireClaim(s, j, now)) && KeysUnique(ExpireClaim(s, j, now))
  {
    hide Granted, Agreed, CommandsUnique, Answered, RunNows, KeysUnique, Alerted;
    var t := ExpireClaim(s, j, now);
    if s.runtimes[j].incident.Some? {
      AlertedFrame(s, t);
    } else {
      var row := t.outbox[|s.outbox|];
      AlertedPush(s, t, j, row);
      FreshErrorKey(s, row);
      KeysFrame(s.(outbox := s.outbox + [row]), t);
    }
  }

  lemma FreshErrorKey(s: State, row: OutboxRow)
    requires Valid(s) && row.notice.ErrorAlert? && row.notice.incident == s.incidents
    ensures KeysUnique(s.(outbox := s.outbox + [row]))
  {
    forall o | 0 <= o < |s.outbox|
      ensures KeyOf(s.outbox[o].notice) != KeyOf(row.notice)
    {
      assert IncidentIn(s.outbox[o].notice).Some? ==> IncidentIn(s.outbox[o].notice).value < s.incidents;
    }
  }

  lemma FreshRecoveryKey(s: State, row: OutboxRow, j: nat)
    requires Valid(s) && j < |s.jobs| && row.notice.RecoveryAlert? && OpenIncident(s.runtimes[j]) == Some(row.notice.incident)
    ensures KeysUnique(s.(outbox := s.outbox + [row]))
  {
    hide Granted, Agreed;
    forall o | 0 <= o < |s.outbox|
      ensures KeyOf(s.outbox[o].notice) != KeyOf(row.notice)
    {
      assert s.outbox[o].notice.RecoveryAlert? ==> OpenIncident(s.runtimes[j]) != Some(s.outbox[o].notice.incident);
    }
  }

  lemma {:induction false} SweepKeeps(s: State, now: Time, j: nat)
    requires Valid(s) && j <= |s.jobs|
    ensures Valid(Sweep(s, now, j))
    decreases |s.jobs| - j
  {
    hide Granted, Agreed, Alerted, KeysUnique, CommandsUnique, Answered, RunNows;
    if j < |s.jobs| {
      if Expired(s.runtimes[j], now) {
        ExpireClaimKeeps(s, j, now);
        SweepKeeps(ExpireClaim(s, j, now), now, j + 1);
      } else {
        SweepKeeps(s, now, j + 1);
      }
    }
  }

  /** After the sweep no lease has run out. */
  lemma {:induction false} SweepFrees(s: State, now: Time, j: nat)
    requires Shaped(s) && j <= |s.jobs|
    requires forall k | 0 <= k < j :: !Expired(s.runtimes[k], now)
    ensures forall k | 0 <= k < |s.jobs| :: !Expired(Sweep(s, now, j).runtimes[k], now)
    decreases |s.jobs| - j
  {
    if j < |s.jobs| {
      SweepFrees(if Expired(s.runtimes[j], now) then ExpireClaim(s, j, now) else s, now, j + 1);
    }
  }

  lemma {:induction false} DeferKeeps(cal: Calendar, s: State, now: Time, due: seq<nat>)
    requires Valid(s)
    requires forall i | 0 <= i < |due| :: due[i] < |s.jobs| && s.jobs[due[i]].desiredOn
    ensures Valid(Defer(cal, s, now, due).0)
    ensures forall j | 0 <= j < |s.jobs| :: Defer(cal, s, now, due).0.runtimes[j].lease == s.runtimes[j].lease
    decreases |due|
  {
    hide Granted, Agreed, Alerted, KeysUnique, CommandsUnique, Answered, RunNows;
    if due != [] && !cal.active(now, s.jobs[due[0]].schedule) {
      var j := due[0];
      var t := s.(runtimes := s.runtimes[j := s.runtimes[j].(nextRun := Some(cal.next(now, s.jobs[j].schedule)))]);
      GrantedFrame(s, t);
      AgreesAt(s, j);
      AgreedFrame(s, t, j);
      AlertedFrame(s, t);
      DeferKeeps(cal, t, now, due[1..]);
    }
  }

  lemma GrantRunKeeps(s: State, r: nat, owner: Owner, until: Time)
    requires Valid(s) && r < |s.runs|
    requires s.runs[r].status == Queued && s.runtimes[s.runs[r].job].lease.None?
    ensures Valid(GrantRun(s, r, owner, until).0)
  {
    hide Granted, Agreed, Alerted, KeysUnique, CommandsUnique, Answered, RunNows;
    var t := GrantRun(s, r, owner, until).0;
    var j := s.runs[r].job;
    AnsweredUpdate(s.runs, r, t.runs[r]);
    AlertedFrame(s, t);
    AgreedSame(s, t);
    GrantRunGrants(s, r, owner, until);
  }

  lemma GrantRunGrants(s: State, r: nat, owner: Owner, until: Time)
    requires Valid(s) && r < |s.runs|
    requires s.runs[r].status == Queued && s.runtimes[s.runs[r].job].lease.None?
    ensures Granted(GrantRun(s, r, owner, until).0)
  {
    hide Agreed, Alerted, KeysUnique, CommandsUnique;
    var t := GrantRun(s, r, owner, until).0;
    var j := s.runs[r].job;
    forall k | 0 <= k < |t.jobs| && t.runtimes[k].lease.Some?
      ensures HasHolder(t, k)
    {
      if k == j {
        assert IsClaimOf(t.runs[r], k, owner, t.runtimes[k].fence);
      } else {
        assert HasHolder(s, k);
        var i :| 0 <= i < |s.runs| && IsClaimOf(s.runs[i], k, s.runtimes[k].lease.value.owner, s.runtimes[k].fence);
        assert IsClaimOf(t.runs[i], k, t.runtimes[k].lease.value.owner, t.runtimes[k].fence);
      }
    }
    forall i | 0 <= i < |t.runs| && t.runs[i].status == Active
      ensures HeldByRun(t, i)
    {
      if i != r { assert HeldByRun(s, i); }
    }
    forall i | 0 <= i < |t.runs| && t.runs[i].grant.Some?
      ensures GrantKnown(t, i)
    {
      if i != r { assert GrantKnown(s, i); }
    }
    forall i, k | 0 <= i < k < |t.runs| && t.runs[i].job == t.runs[k].job && t.runs[i].grant.Some? && t.runs[k].grant.Some?
      ensures t.runs[i].grant.value.fence != t.runs[k].grant.value.fence
    {
      if i == r { assert GrantKnown(s, k); } else if k == r { assert GrantKnown(s, i); }
    }
  }

  /** A selected run is queued and its job is free, so granting it makes the only active run of the job. */
  lemma SelectRunKeeps(cal: Calendar, s: State, now: Time, pick: Option<nat>, due: seq<nat>)
    requires Valid(s)
    ensures var (t, r) := SelectRun(cal, s, now, pick, due);
            Valid(t) && (r.Some? ==> t.runs[r.value].status == Queued && t.runtimes[t.runs[r.value].job].lease.None?)
  {
    hide Granted, Agreed, Alerted, KeysUnique, CommandsUnique, Answered, RunNows, Sweep, Defer;
    var s1 := Sweep(s, now, 0);
    SweepKeeps(s, now, 0);
    SweepFrees(s, now, 0);
    if FirstClaimable(s1, now, pick) && pick.None? && DueOrder(s1, now, due) {
      var (s2, chosen) := Defer(cal, s1, now, due);
      DeferKeeps(cal, s1, now, due);
      if chosen.Some? {
        var j := chosen.value;
        assert Due(s1, now, j);
        NoQueuedRun(s1, now, j);
        AppendScheduledKeeps(s2, j, now);
      }
    }
  }

  lemma NoQueuedRun(s: State, now: Time, j: nat)
    requires Valid(s) && j < |s.jobs| && Due(s, now, j)
    requires forall q | 0 <= q < |s.runs| :: !Claimable(s, now, q)
    ensures forall i | 0 <= i < |s.runs| && s.runs[i].job == j :: s.runs[i].status != Queued
  {
    forall i | 0 <= i < |s.runs| && s.runs[i].job == j
      ensures s.runs[i].status != Queued
    {
      assert !Claimable(s, now, i);
    }
  }

  lemma AppendScheduledKeeps(s: State, j: nat, now: Time)
    requires Valid(s) && j < |s.jobs| && s.jobs[j].desiredOn
    requires forall i | 0 <= i < |s.runs| && s.runs[i].job == j :: s.runs[i].status != Queued
    ensures Valid(s.(runs := s.runs + [Run(j, Scheduled, Queued, now, None, 0, None)]))
  {
    hide Granted, Agreed, Alerted, KeysUnique, CommandsUnique, Answered, RunNows;
    var run := Run(j, Scheduled, Queued, now, None, 0, None);
    var t := s.(runs := s.runs + [run]);
    AnsweredAppend(s.runs, run);
    GrantedFrame(s, t);
    AgreedAppend(s, t, run);
    AlertedFrame(s, t);
  }

  lemma ClaimRunKeeps(cal: Calendar, s: State, owner: Owner, seconds: int, now: Time, pick: Option<nat>, due: seq<nat>)
    requires Valid(s)
    ensures Valid(ClaimRun(cal, s, owner, seconds, now, pick, due).0)
  {
    hide Granted, Agreed, Alerted, KeysUnique, CommandsUnique, Answered, RunNows, SelectRun, GrantRun;
    SelectRunKeeps(cal, s, now, pick, due);
    var (t, r) := SelectRun(cal, s, now, pick, due);
    if r.Some? { GrantRunKeeps(t, r.value, owner, now + seconds); }
  }

  // ----- Ends of runs

  /** Ending the run that holds a job and freeing the job. */
  lemma ReleaseKeeps(s: State, t: State, job: nat, run: nat, owner: Owner, token: nat)
    requires Shaped(s) && Shaped(t) && Granted(s) && Owns(s, job, run, owner, token)
    requires t.jobs == s.jobs && |t.runs| == |s.runs|
    requires t.runs == s.runs[run := t.runs[run]] && t.runs[run].job == job && t.runs[run].grant == s.runs[run].grant
    requires t.runs[run].status !in {Queued, Active}
    requires t.runtimes[job].lease.None? && t.runtimes[job].fence == token
    requires forall k | 0 <= k < |s.jobs| && k != job :: t.runtimes[k] == s.runtimes[k]
    ensures Granted(t)
  {
    forall k | 0 <= k < |t.jobs| && t.runtimes[k].lease.Some?
      ensures HasHolder(t, k)
    {
      assert HasHolder(s, k);
      var i :| 0 <= i < |s.runs| && IsClaimOf(s.runs[i], k, s.runtimes[k].lease.value.owner, s.runtimes[k].fence);
      assert IsClaimOf(t.runs[i], k, t.runtimes[k].lease.value.owner, t.runtimes[k].fence);
    }
    forall i | 0 <= i < |t.runs| && t.runs[i].status == Active
      ensures HeldByRun(t, i)
    {
      assert HeldByRun(s, i);
      if t.runs[i].job == job { OneActive(s, i, run); }
    }
    forall i | 0 <= i < |t.runs| && t.runs[i].grant.Some?
      ensures GrantKnown(t, i)
    {
      assert GrantKnown(s, i);
    }
  }

  /** Two active runs of one job would both carry its token. */
  lemma OneActive(s: State, i: nat, k: nat)
    requires Shaped(s) && Granted(s) && i < |s.runs| && k < |s.runs|
    requires s.runs[i].status == Active && s.runs[k].status == Active && s.runs[i].job == s.runs[k].job
    ensures i == k
  {
    assert HeldByRun(s, i) && HeldByRun(s, k);
  }

  lemma CancelRunKeeps(cal: Calendar, s: State, job: nat, run: nat, owner: Owner, token: nat, code: Code, now: Time)
    requires Valid(s)
    ensures Valid(CancelRun(cal, s, job, run, owner, token, code, now).0)
  {
    hide Granted, Agreed, Alerted, KeysUnique, CommandsUnique, Answered, RunNows;
    var (t, done) := CancelRun(cal, s, job, run, owner, token, code, now);
    if done {
      AgreesAt(s, job);
      ReleaseKeeps(s, t, job, run, owner, token);
      AgreedFrame(s, t, job);
      AlertedFrame(s, t);
      AnsweredUpdate(s.runs, run, t.runs[run]);
    }
  }

  lemma HeartbeatKeeps(s: State, job: nat, run: nat, owner: Owner, token: nat, seconds: int, now: Time)
    requires Valid(s)
    ensures Valid(Heartbeat(s, job, run, owner, token, seconds, now).0)
  {
    hide Granted, Agreed, Alerted, KeysUnique, CommandsUnique, Answered, RunNows;
    var t := Heartbeat(s, job, run, owner, token, seconds, now).0;
    GrantedFrame(s, t);
    AgreedSame(s, t);
    AlertedFrame(s, t);
  }

  lemma FinishRunAlerts(cal: Calendar, s: State, job: nat, run: nat, owner: Owner, token: nat,
                        succeeded: bool, code: Code, delay: Option<int>, now: Time)
    requires Valid(s)
    ensures var t := FinishRun(cal, s, job, run, owner, token, succeeded, code, delay, now).0;
            Shaped(t) && Alerted(t) && KeysUnique(t)
  {
    hide Granted, Agreed, Alerted, KeysUnique, CommandsUnique, Answered, RunNows;
    var (t, done) := FinishRun(cal, s, job, run, owner, token, succeeded, code, delay, now);
    if done {
      if AlertOf(s, job, run, succeeded, code, now) == [] {
        assert t.outbox == s.outbox;
        AlertedFrame(s, t);
      } else {
        var row := t.outbox[|s.outbox|];
        AlertedPush(s, t, job, row);
        if succeeded {
          FreshRecoveryKey(s, row, job);
          KeysFrame(s.(outbox := s.outbox + [row]), t);
        } else {
          FreshErrorKey(s, row);
          KeysFrame(s.(outbox := s.outbox + [row]), t);
        }
      }
    }
  }

  lemma FinishRunKeeps(cal: Calendar, s: State, job: nat, run: nat, owner: Owner, token: nat,
                       succeeded: bool, code: Code, delay: Option<int>, now: Time)
    requires Valid(s)
    ensures Valid(FinishRun(cal, s, job, run, owner, token, succeeded, code, delay, now).0)
  {
    hide Granted, Agreed, Alerted, KeysUnique, CommandsUnique, Answered, RunNows;
    var (t, done) := FinishRun(cal, s, job, run, owner, token, succeeded, code, delay, now);
    FinishRunAlerts(cal, s, job, run, owner, token, succeeded, code, delay, now);
    if done {
      AgreesAt(s, job);
      ReleaseKeeps(s, t, job, run, owner, token);
      AgreedFrame(s, t, job);
      AnsweredUpdate(s.runs, run, t.runs[run]);
    }
  }

  // ----- Deliveries and cursors

  lemma DeliveryKeeps(s: State, t: State)
    requires Valid(s) && t == s.(outbox := t.outbox) && |t.outbox| == |s.outbox|
    requires forall o | 0 <= o < |s.outbox| :: t.outbox[o].job == s.outbox[o].job && t.outbox[o].notice == s.outbox[o].notice
    ensures Valid(t)
  {
    hide Granted, Agreed, Alerted, KeysUnique, CommandsUnique, Answered, RunNows;
    GrantedFrame(s, t);
    AgreedSame(s, t);
    AlertedFrame(s, t);
  }

  lemma CursorsKeep(s: State, cursors: map<(nat, CursorName), Cursor>)
    requires Valid(s)
    ensures Valid(s.(cursors := cursors))
  {
    hide Granted, Agreed, Alerted, KeysUnique, CommandsUnique, Answered, RunNows;
    var t := s.(cursors := cursors);
    GrantedFrame(s, t);
    AgreedSame(s, t);
    AlertedFrame(s, t);
  }

  /** The invariant is inductive. */
  lemma StepKeeps(cal: Calendar, s: State, a: Action)
    requires Valid(s)
    ensures Valid(Step(cal, s, a))
  {
    hide Granted, Agreed, Alerted, KeysUnique, CommandsUnique, Answered, RunNows, Execute, Reconcile, ClaimRun, CancelRun, Heartbeat, FinishRun;
    match a {
      case DoCommand(key, request, c) => ExecuteKeeps(s, key, request, c);
      case DoReconcile(now, pick) => ReconcileKeeps(cal, s, now, pick);
      case DoClaimRun(owner, seconds, now, pick, due) => ClaimRunKeeps(cal, s, owner, seconds, now, pick, due);
      case DoCancelRun(job, run, owner, token, code, now) => CancelRunKeeps(cal, s, job, run, owner, token, code, now);
      case DoHeartbeat(job, run, owner, token, seconds, now) => HeartbeatKeeps(s, job, run, owner, token, seconds, now);
      case DoFinishRun(job, run, owner, token, succeeded, code, delay, now) =>
        FinishRunKeeps(cal, s, job, run, owner, token, succeeded, code, delay, now);
      case DoUpdateCursor(job, name, value, expected, owner, token, now) => CursorsKeep(s, Step(cal, s, a).cursors);
      case DoClaimOutbox(owner, seconds, now, pick) => DeliveryKeeps(s, Step(cal, s, a));
      case DoCancelDelivery(row, owner, token, code, now) => DeliveryKeeps(s, Step(cal, s, a));
      case DoBlockDelivery(row, owner, token, code, now) => DeliveryKeeps(s, Step(cal, s, a));
      case DoFinishDelivery(row, owner, token, sent, code, retry, now) => DeliveryKeeps(s, Step(cal, s, a));
    }
  }
}

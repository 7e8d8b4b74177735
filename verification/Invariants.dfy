/** What every reachable state of the store satisfies. */
module Invariants {
  import opened Options
  import opened Tables
  import opened Steps

  // ----- Claims, leases and fencing tokens

  ghost predicate Granted(s: State)
    requires Shaped(s)
  {
    && (forall i | 0 <= i < |s.runs| && s.runs[i].status == Queued :: s.runs[i].grant.None?)
    && (forall i | 0 <= i < |s.runs| && s.runs[i].status == Active :: HeldByRun(s, i))
    && (forall i | 0 <= i < |s.runs| && s.runs[i].grant.Some? :: GrantKnown(s, i))
    && (forall i, k | 0 <= i < k < |s.runs| && s.runs[i].job == s.runs[k].job
                      && s.runs[i].grant.Some? && s.runs[k].grant.Some? ::
          s.runs[i].grant.value.fence != s.runs[k].grant.value.fence)
    && (forall j | 0 <= j < |s.jobs| && s.runtimes[j].lease.Some? :: HasHolder(s, j))
  }

  predicate HeldByRun(s: State, i: nat)
    requires Shaped(s) && i < |s.runs|
  {
    var run := s.runs[i];
    run.grant.Some? && Holds(s.runtimes[run.job], run.grant.value.owner, run.grant.value.fence)
  }

  predicate GrantKnown(s: State, i: nat)
    requires Shaped(s) && i < |s.runs| && s.runs[i].grant.Some?
  {
    var g := s.runs[i].grant.value;
    1 <= g.fence <= s.runtimes[s.runs[i].job].fence && g.revision <= s.jobs[s.runs[i].job].revision
  }

  ghost predicate HasHolder(s: State, j: nat)
    requires Shaped(s) && j < |s.jobs| && s.runtimes[j].lease.Some?
  {
    exists i :: 0 <= i < |s.runs| && IsClaimOf(s.runs[i], j, s.runtimes[j].lease.value.owner, s.runtimes[j].fence)
  }

  // ----- Agreement of the runtime rows with the desired rows

  ghost predicate Agreed(s: State)
    requires Shaped(s)
  {
    && (forall j | 0 <= j < |s.jobs| :: JobAgrees(s, j))
    && (forall i | 0 <= i < |s.runs| && s.runs[i].status == Queued :: s.jobs[s.runs[i].job].desiredOn)
    && (forall i, k | 0 <= i < k < |s.runs| && s.runs[i].status == Queued && s.runs[k].status == Queued ::
          s.runs[i].job != s.runs[k].job)
  }

  predicate JobAgrees(s: State, j: nat)
    requires Shaped(s) && j < |s.jobs|
  {
    var job, rt := s.jobs[j], s.runtimes[j];
    && 1 <= job.revision && rt.applied <= job.revision
    && (job.archived ==> !job.desiredOn)
    && (!job.desiredOn ==> rt.nextRun.None?)
    && (job.desiredOn && rt.applied == job.revision ==> rt.nextRun.Some?)
  }

  // ----- Incidents and their alerts

  datatype Alert = Alert(transition: Transition, incident: nat)

  /** The alerts ever queued for a job, in order. */
  function AlertsOf(outbox: seq<OutboxRow>, j: nat): seq<Alert> {
    if outbox == [] then []
    else
      var row := outbox[|outbox| - 1];
      AlertsOf(outbox[..|outbox| - 1], j) + AlertIn(row.job, row.notice, j)
  }

  function AlertIn(job: nat, notice: Notice, j: nat): seq<Alert> {
    if job != j then []
    else
      match notice
      case TestNotice(_) => []
      case ErrorAlert(id, _) => [Alert(ToError, id)]
      case RecoveryAlert(id, _) => [Alert(ToRecovery, id)]
  }

  /** The alerts are pairs of an error and its own recovery, and after them the error of the incident
      still open, if one is. */
  predicate Alternating(alerts: seq<Alert>, open: Option<nat>) {
    if alerts == [] then open.None?
    else
      var Alert(transition, id) := alerts[|alerts| - 1];
      match transition
      case ToError => open == Some(id) && Alternating(alerts[..|alerts| - 1], None)
      case ToRecovery => open == None && Alternating(alerts[..|alerts| - 1], Some(id))
  }

  function OpenIncident(rt: Runtime): Option<nat> {
    if rt.incident.Some? then Some(rt.incident.value.id) else None
  }

  function IncidentIn(n: Notice): Option<nat> {
    match n
    case TestNotice(_) => None
    case ErrorAlert(id, _) => Some(id)
    case RecoveryAlert(id, _) => Some(id)
  }

  ghost predicate Alerted(s: State)
    requires Shaped(s)
  {
    && (forall j | 0 <= j < |s.jobs| :: Alternating(AlertsOf(s.outbox, j), OpenIncident(s.runtimes[j])))
    && (forall j | 0 <= j < |s.jobs| && s.runtimes[j].incident.Some? :: s.runtimes[j].incident.value.id < s.incidents)
    && (forall i, j | 0 <= i < j < |s.jobs| && s.runtimes[i].incident.Some? && s.runtimes[j].incident.Some? ::
          s.runtimes[i].incident.value.id != s.runtimes[j].incident.value.id)
    && (forall o | 0 <= o < |s.outbox| && IncidentIn(s.outbox[o].notice).Some? ::
          IncidentIn(s.outbox[o].notice).value < s.incidents)
    && (forall o, j | 0 <= o < |s.outbox| && 0 <= j < |s.jobs| && s.outbox[o].notice.RecoveryAlert? ::
          OpenIncident(s.runtimes[j]) != Some(s.outbox[o].notice.incident))
  }

  /** The uniqueness constraint of the outbox is never at risk. */
  ghost predicate KeysUnique(s: State) {
    && (forall a, b | 0 <= a < b < |s.outbox| :: KeyOf(s.outbox[a].notice) != KeyOf(s.outbox[b].notice))
    && (forall o | 0 <= o < |s.outbox| && s.outbox[o].notice.TestNotice? :: s.outbox[o].notice.command < |s.commands|)
  }

  // ----- Commands

  ghost predicate CommandsUnique(commands: seq<Command>) {
    forall a, b | 0 <= a < b < |commands| :: !Named(commands[b], commands[a].source, commands[a].key)
  }

  function RunNows(commands: seq<Command>): nat {
    if commands == [] then 0
    else RunNows(commands[..|commands| - 1]) + if commands[|commands| - 1].request.op.RunNow? then 1 else 0
  }

  /** Every accepted run-now command either made a manual run or was counted on one that covered it. */
  function Answered(runs: seq<Run>): nat {
    if runs == [] then 0
    else Answered(runs[..|runs| - 1]) + Weight(runs[|runs| - 1])
  }

  function Weight(run: Run): nat {
    (if run.trigger.Manual? then 1 else 0) + run.coalesced
  }

  ghost predicate Valid(s: State) {
    && Shaped(s)
    && Granted(s)
    && Agreed(s)
    && Alerted(s)
    && KeysUnique(s)
    && CommandsUnique(s.commands)
    && RunNows(s.commands) == Answered(s.runs)
  }

  lemma ShapedOf(s: State)
    requires Valid(s)
    ensures Shaped(s)
  {
  }

  // ----- Folds over changed rows

  lemma {:induction false} AnsweredSame(a: seq<Run>, b: seq<Run>)
    requires |a| == |b|
    requires forall i | 0 <= i < |a| :: Weight(a[i]) == Weight(b[i])
    ensures Answered(a) == Answered(b)
  {
    if a != [] { AnsweredSame(a[..|a| - 1], b[..|b| - 1]); }
  }

  lemma {:induction false} AnsweredUpdate(a: seq<Run>, i: nat, run: Run)
    requires i < |a|
    ensures Answered(a[i := run]) == Answered(a) - Weight(a[i]) + Weight(run)
  {
    var b := a[i := run];
    if i == |a| - 1 {
      assert b[..|a| - 1] == a[..|a| - 1];
    } else {
      assert b[..|a| - 1] == a[..|a| - 1][i := run];
      AnsweredUpdate(a[..|a| - 1], i, run);
    }
  }

  lemma AnsweredAppend(a: seq<Run>, run: Run)
    ensures Answered(a + [run]) == Answered(a) + Weight(run)
  {
    assert (a + [run])[..|a|] == a;
  }

  lemma {:induction false} AlertsSame(a: seq<OutboxRow>, b: seq<OutboxRow>, j: nat)
    requires |a| == |b|
    requires forall o | 0 <= o < |a| :: a[o].job == b[o].job && a[o].notice == b[o].notice
    ensures AlertsOf(a, j) == AlertsOf(b, j)
  {
    if a != [] { AlertsSame(a[..|a| - 1], b[..|b| - 1], j); }
  }

  lemma AlertsAppend(a: seq<OutboxRow>, row: OutboxRow, j: nat)
    ensures AlertsOf(a + [row], j) == AlertsOf(a, j) + AlertIn(row.job, row.notice, j)
  {
    assert (a + [row])[..|a|] == a;
  }

  lemma AlternatingPush(alerts: seq<Alert>, open: Option<nat>, a: Alert)
    requires Alternating(alerts, open)
    requires open == if a.transition == ToError then None else Some(a.incident)
    ensures Alternating(alerts + [a], if a.transition == ToError then Some(a.incident) else None)
  {
    assert (alerts + [a])[..|alerts|] == alerts;
  }

  // ----- Frames: what a step may change without touching one part of the invariant

  /** Same intents for the same jobs; every incident as before; new jobs have none. */
  ghost predicate SameAlerts(s: State, t: State)
    requires Shaped(s) && Shaped(t)
  {
    && |s.jobs| <= |t.jobs| && s.incidents == t.incidents && |s.commands| <= |t.commands|
    && |s.outbox| == |t.outbox|
    && (forall o | 0 <= o < |s.outbox| :: s.outbox[o].job == t.outbox[o].job && s.outbox[o].notice == t.outbox[o].notice)
    && (forall j | 0 <= j < |s.jobs| :: s.runtimes[j].incident == t.runtimes[j].incident)
    && (forall j | |s.jobs| <= j < |t.jobs| :: t.runtimes[j].incident.None?)
  }

  lemma {:induction false} NoAlerts(outbox: seq<OutboxRow>, j: nat)
    requires forall o | 0 <= o < |outbox| :: outbox[o].job < j
    ensures AlertsOf(outbox, j) == []
  {
    if outbox != [] { NoAlerts(outbox[..|outbox| - 1], j); }
  }

  lemma AlertedFrame(s: State, t: State)
    requires Shaped(s) && Shaped(t) && Alerted(s) && SameAlerts(s, t)
    ensures Alerted(t)
    ensures KeysUnique(s) ==> KeysUnique(t)
  {
    forall j | 0 <= j < |t.jobs|
      ensures Alternating(AlertsOf(t.outbox, j), OpenIncident(t.runtimes[j]))
    {
      AlertsSame(s.outbox, t.outbox, j);
      if j < |s.jobs| {
        assert OpenIncident(s.runtimes[j]) == OpenIncident(t.runtimes[j]);
      } else {
        NoAlerts(s.outbox, j);
      }
    }
    forall o, j | 0 <= o < |t.outbox| && 0 <= j < |t.jobs| && t.outbox[o].notice.RecoveryAlert?
      ensures OpenIncident(t.runtimes[j]) != Some(t.outbox[o].notice.incident)
    {
      assert s.outbox[o].notice == t.outbox[o].notice;
      if j < |s.jobs| { assert OpenIncident(s.runtimes[j]) == OpenIncident(t.runtimes[j]); }
    }
  }

  lemma KeysFrame(s: State, t: State)
    requires KeysUnique(s) && |s.outbox| == |t.outbox| && |s.commands| <= |t.commands|
    requires forall o | 0 <= o < |s.outbox| :: s.outbox[o].notice == t.outbox[o].notice
    ensures KeysUnique(t)
  {
  }
}

/** What the store promises over whole histories: any number of transactions by any callers, at clock
readings that need not even be ordered. */
module Histories {
  import opened Options
  import opened Tables
  import opened Steps
  import opened Invariants
  import opened Preservation

  ghost function History(cal: Calendar, s: State, acts: seq<Action>): (t: State)
    requires Valid(s)
    ensures Valid(t)
    decreases |acts|
  {
    if acts == [] then s
    else
      StepKeeps(cal, s, acts[0]);
      History(cal, Step(cal, s, acts[0]), acts[1..])
  }

  lemma EmptyIsValid()
    ensures Valid(EMPTY)
  {
  }

  /** The state that a history leads to from the empty tables. */
  ghost function Reached(cal: Calendar, acts: seq<Action>): (s: State)
    ensures Valid(s)
  {
    EmptyIsValid();
    History(cal, EMPTY, acts)
  }

  // ----- A plain command

  const OPERATOR := Actor(System, 0)
  const HOURLY := Schedule(3600, "UTC", AllDay)

  function Asking(op: Operation, expected: int): Request {
    Request(op, expected, OPERATOR)
  }

  function Asks(key: string, op: Operation, expected: int, now: Time): Action {
    DoCommand(key, Asking(op, expected), Context(now, now, None, true))
  }

  // ----- One run per job

  predicate ActiveOn(s: State, i: int, j: int) {
    0 <= i < |s.runs| && s.runs[i].job == j && s.runs[i].status == Active
  }

  /** A job has at most one active run; its lease is set exactly when it has one, with the same owner
      and token; and no two claims of a job ever share a token. */
  ghost predicate LeasesMirrorRuns(s: State)
    requires Shaped(s)
  {
    && (forall i, k, j :: ActiveOn(s, i, j) && ActiveOn(s, k, j) ==> i == k)
    && (forall j | 0 <= j < |s.jobs| :: s.runtimes[j].lease.Some? <==> exists i :: ActiveOn(s, i, j))
    && (forall i, j | 0 <= j < |s.jobs| && ActiveOn(s, i, j) ::
          && s.runs[i].grant.Some?
          && Holds(s.runtimes[j], s.runs[i].grant.value.owner, s.runs[i].grant.value.fence))
    && (forall i, k | 0 <= i < k < |s.runs| && s.runs[i].job == s.runs[k].job && s.runs[i].grant.Some? && s.runs[k].grant.Some? ::
          s.runs[i].grant.value.fence != s.runs[k].grant.value.fence)
  }

  lemma GrantedLeases(s: State)
    requires Shaped(s) && Granted(s)
    ensures LeasesMirrorRuns(s)
  {
    forall i, k, j | ActiveOn(s, i, j) && ActiveOn(s, k, j) ensures i == k { OneActive(s, i, k); }
    forall i, j | 0 <= j < |s.jobs| && ActiveOn(s, i, j)
      ensures s.runs[i].grant.Some? && Holds(s.runtimes[j], s.runs[i].grant.value.owner, s.runs[i].grant.value.fence)
    {
      assert HeldByRun(s, i);
    }
    forall j | 0 <= j < |s.jobs| && s.runtimes[j].lease.Some?
      ensures exists i :: ActiveOn(s, i, j)
    {
      assert HasHolder(s, j);
      var i :| 0 <= i < |s.runs| && IsClaimOf(s.runs[i], j, s.runtimes[j].lease.value.owner, s.runtimes[j].fence);
      assert ActiveOn(s, i, j);
    }
  }

  lemma ReachableLeases(cal: Calendar, acts: seq<Action>)
    ensures LeasesMirrorRuns(Reached(cal, acts))
  {
    GrantedLeases(Reached(cal, acts));
  }

  // ----- What never goes back

  /** Jobs stay; revisions and fencing tokens never fall; a job whose revision stands is untouched;
      commands are never forgotten; only a fenced write touches a cursor. */
  ghost predicate Advances(s: State, t: State)
    requires Shaped(s) && Shaped(t)
  {
    && |s.jobs| <= |t.jobs|
    && (forall j | 0 <= j < |s.jobs| :: RowAdvances(s, t, j))
    && s.commands <= t.commands
  }

  predicate RowAdvances(s: State, t: State, j: nat)
    requires Shaped(s) && Shaped(t) && j < |s.jobs| <= |t.jobs|
  {
    && s.runtimes[j].fence <= t.runtimes[j].fence
    && s.jobs[j].revision <= t.jobs[j].revision
    && s.jobs[j].template == t.jobs[j].template
    && (s.jobs[j].archived ==> t.jobs[j].archived)
    && (s.jobs[j].revision == t.jobs[j].revision ==> s.jobs[j] == t.jobs[j])
  }

  lemma AdvancesTransitive(s: State, t: State, u: State)
    requires Shaped(s) && Shaped(t) && Shaped(u) && Advances(s, t) && Advances(t, u)
    ensures Advances(s, u)
  {
    forall j | 0 <= j < |s.jobs| ensures RowAdvances(s, u, j) { assert RowAdvances(s, t, j) && RowAdvances(t, u, j); }
  }

  lemma AdvancesSame(s: State, t: State)
    requires Shaped(s) && Shaped(t) && t.jobs == s.jobs && s.commands <= t.commands
    requires forall j | 0 <= j < |s.jobs| :: s.runtimes[j].fence <= t.runtimes[j].fence
    ensures Advances(s, t)
  {
  }

  lemma {:induction false} SweepAdvances(s: State, now: Time, j: nat)
    requires Shaped(s) && j <= |s.jobs|
    ensures Sweep(s, now, j).commands == s.commands && Sweep(s, now, j).cursors == s.cursors && Sweep(s, now, j).hold == s.hold
    ensures forall k | 0 <= k < |s.jobs| :: Sweep(s, now, j).runtimes[k].fence == s.runtimes[k].fence
    decreases |s.jobs| - j
  {
    if j < |s.jobs| { SweepAdvances(if Expired(s.runtimes[j], now) then ExpireClaim(s, j, now) else s, now, j + 1); }
  }

  lemma {:induction false} DeferAdvances(cal: Calendar, s: State, now: Time, due: seq<nat>)
    requires Shaped(s) && forall i | 0 <= i < |due| :: due[i] < |s.jobs|
    ensures var t := Defer(cal, s, now, due).0;
            && t.commands == s.commands && t.cursors == s.cursors && t.hold == s.hold && t.outbox == s.outbox
            && forall k | 0 <= k < |s.jobs| :: t.runtimes[k].fence == s.runtimes[k].fence
    decreases |due|
  {
    if due != [] && !cal.active(now, s.jobs[due[0]].schedule) {
      var j := due[0];
      DeferAdvances(cal, s.(runtimes := s.runtimes[j := s.runtimes[j].(nextRun := Some(cal.next(now, s.jobs[j].schedule)))]), now, due[1..]);
    }
  }

  lemma SelectAdvances(cal: Calendar, s: State, now: Time, pick: Option<nat>, due: seq<nat>)
    requires Shaped(s)
    ensures var t := SelectRun(cal, s, now, pick, due).0;
            && t.jobs == s.jobs && t.commands == s.commands && t.cursors == s.cursors && t.hold == s.hold
            && forall k | 0 <= k < |s.jobs| :: t.runtimes[k].fence == s.runtimes[k].fence
  {
    hide FirstClaimable;
    var s1 := Sweep(s, now, 0);
    SweepAdvances(s, now, 0);
    if DueOrder(s1, now, due) { DeferAdvances(cal, s1, now, due); }
  }

  ghost predicate RowsAdvance(s: State, t: State)
    requires Shaped(s)
  {
    && |t.jobs| == |t.runtimes| && t.commands == s.commands && t.cursors == s.cursors
    && (t.jobs == s.jobs || RowChanged(s, t))
    && |s.jobs| <= |t.jobs| && forall j | 0 <= j < |s.jobs| :: t.runtimes[j].fence == s.runtimes[j].fence
  }

  lemma SettingAdvances(s: State, job: nat, enabled: bool, schedule: Schedule, expected: int, now: Time)
    requires Shaped(s)
    ensures var r := SetJobEnabled(s, job, enabled, expected, now); r.Ok? ==> RowsAdvance(s, r.state)
    ensures var r := SetJobSchedule(s, job, schedule, expected, now); r.Ok? ==> RowsAdvance(s, r.state)
  {
  }

  lemma ArchiveAdvances(s: State, job: nat, expected: int, checked: Time, now: Time)
    requires Shaped(s)
    ensures var r := ArchiveJob(s, job, expected, checked, now); r.Ok? ==> RowsAdvance(s, r.state)
  {
    hide Droppable;
  }

  lemma EnqueueAdvances(s: State, job: nat, command: nat, expected: int, now: Time, pick: Option<nat>)
    requires Shaped(s)
    ensures var r := EnqueueRun(s, job, command, expected, now, pick); r.Ok? ==> RowsAdvance(s, r.state)
  {
    hide FirstCovering;
  }

  lemma MutateAdvances(s: State, request: Request, command: nat, c: Context)
    requires Shaped(s)
    ensures var r := Mutate(s, request, command, c); r.Ok? ==> RowsAdvance(s, r.state)
  {
    hide LiveTemplate, EnqueueRun, ArchiveJob, SetJobEnabled, SetJobSchedule;
    match request.op {
      case CreateFromTemplate(_, _) =>
      case SetGlobalHold(_, _, _) =>
      case SetEnabled(job, enabled) => SettingAdvances(s, job, enabled, Schedule(0, "", AllDay), request.expected, c.now);
      case SetSchedule(job, schedule) => SettingAdvances(s, job, false, schedule, request.expected, c.now);
      case RunNow(job) => EnqueueAdvances(s, job, command, request.expected, c.now, c.pick);
      case TestNotification(job) =>
      case Archive(job) => ArchiveAdvances(s, job, request.expected, c.checked, c.now);
    }
  }

  /** One job is new, or one job has a new revision. */
  ghost predicate RowChanged(s: State, t: State) {
    || (|t.jobs| == |s.jobs| + 1 && t.jobs[..|s.jobs|] == s.jobs)
    || exists j | 0 <= j < |s.jobs| ::
         && |t.jobs| == |s.jobs| && t.jobs == s.jobs[j := t.jobs[j]]
         && t.jobs[j].revision == s.jobs[j].revision + 1
         && t.jobs[j].template == s.jobs[j].template
         && (s.jobs[j].archived ==> t.jobs[j].archived)
  }

  lemma StepAdvances(cal: Calendar, s: State, a: Action)
    requires Valid(s)
    ensures Valid(Step(cal, s, a)) && Advances(s, Step(cal, s, a))
  {
    hide Granted, Agreed, Alerted, KeysUnique, CommandsUnique, Answered, RunNows, Mutate, SelectRun, OldestOutOfSync, FirstDeliverable;
    StepKeeps(cal, s, a);
    var t := Step(cal, s, a);
    if a.DoCommand? {
      MutateAdvances(s, a.request, |s.commands|, a.context);
      ExecuteAdvances(s, a.key, a.request, a.context);
    } else {
      if a.DoClaimRun? { SelectAdvances(cal, s, a.now, a.pick, a.due); }
      AdvancesSame(s, t);
    }
  }

  lemma ExecuteAdvances(s: State, key: string, request: Request, c: Context)
    requires Valid(s) && Valid(Kept(s, Execute(s, key, request, c)))
    ensures Advances(s, Kept(s, Execute(s, key, request, c)))
  {
    hide Granted, Agreed, Alerted, KeysUnique, CommandsUnique, Answered, RunNows, Mutate;
    MutateAdvances(s, request, |s.commands|, c);
  }

  lemma {:induction false} HistoryAdvances(cal: Calendar, s: State, acts: seq<Action>)
    requires Valid(s)
    ensures Advances(s, History(cal, s, acts))
    decreases |acts|
  {
    hide Granted, Agreed, Alerted, KeysUnique, CommandsUnique, Answered, RunNows, Step;
    if acts == [] {
      AdvancesReflexive(s);
    } else {
      StepAdvances(cal, s, acts[0]);
      HistoryAdvances(cal, Step(cal, s, acts[0]), acts[1..]);
      AdvancesTransitive(s, Step(cal, s, acts[0]), History(cal, s, acts));
    }
  }

  lemma AdvancesReflexive(s: State)
    requires Shaped(s)
    ensures Advances(s, s)
  {
  }
}

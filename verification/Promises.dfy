/** The promises of the store, each over every history. */
module Promises {
  import opened Options
  import opened Tables
  import opened Steps
  import opened Invariants
  import opened Preservation
  import opened Histories

  // ----- Fencing

  /** Nothing that a holder of `token` can ask of the store has any effect. */
  ghost predicate Powerless(cal: Calendar, t: State, job: nat, token: nat)
    requires Shaped(t)
  {
    && (forall run, owner, code, now :: CancelRun(cal, t, job, run, owner, token, code, now) == (t, false))
    && (forall run, owner, seconds, now :: Heartbeat(t, job, run, owner, token, seconds, now) == (t, false))
    && (forall run, owner, succeeded, code, delay, now ::
          FinishRun(cal, t, job, run, owner, token, succeeded, code, delay, now) == (t, false))
    && (forall name, value, expected, owner, now :: UpdateCursor(t, job, name, value, expected, owner, token, now).Err?)
    && (forall run, owner, revision, now :: !RunClaimCurrent(t, Claim(run, job, owner, revision, token), now))
  }

  /** Once a newer claim of a job is granted, every older token is powerless for ever. */
  lemma NewerClaimFences(cal: Calendar, s: State, owner: Owner, seconds: int, now: Time, pick: Option<nat>, due: seq<nat>,
                         acts: seq<Action>, token: nat)
    requires Valid(s)
    requires ClaimRun(cal, s, owner, seconds, now, pick, due).1.Some?
    requires token < ClaimRun(cal, s, owner, seconds, now, pick, due).1.value.token
    ensures var (s', claim) := ClaimRun(cal, s, owner, seconds, now, pick, due);
            && Valid(s')
            && claim.value.job < |s.jobs| && claim.value.token == s.runtimes[claim.value.job].fence + 1
            && Powerless(cal, History(cal, s', acts), claim.value.job, token)
  {
    ClaimRunKeeps(cal, s, owner, seconds, now, pick, due);
    var (s', claim) := ClaimRun(cal, s, owner, seconds, now, pick, due);
    ClaimGranted(cal, s, owner, seconds, now, pick, due);
    HistoryAdvances(cal, s', acts);
    var job := claim.value.job;
    assert RowAdvances(s', History(cal, s', acts), job);
    OlderTokenPowerless(cal, History(cal, s', acts), job, token);
  }

  lemma OlderTokenPowerless(cal: Calendar, t: State, job: nat, token: nat)
    requires Shaped(t) && job < |t.jobs| && token < t.runtimes[job].fence
    ensures Powerless(cal, t, job, token)
  {
  }

  /** A granted claim carries the next token of its job, the revision of the job, and holds it. */
  lemma ClaimGranted(cal: Calendar, s: State, owner: Owner, seconds: int, now: Time, pick: Option<nat>, due: seq<nat>)
    requires Valid(s)
    requires ClaimRun(cal, s, owner, seconds, now, pick, due).1.Some?
    ensures var (t, claim) := ClaimRun(cal, s, owner, seconds, now, pick, due);
            var c := claim.value;
            && Shaped(t) && t.jobs == s.jobs && t.cursors == s.cursors
            && c.job < |s.jobs| && c.owner == owner
            && c.token == s.runtimes[c.job].fence + 1 == t.runtimes[c.job].fence
            && c.revision == s.jobs[c.job].revision
            && s.jobs[c.job].desiredOn && !s.jobs[c.job].archived
            && Owns(t, c.job, c.run, owner, c.token)
            && (forall j | 0 <= j < |s.jobs| && j != c.job :: t.runtimes[j].fence == s.runtimes[j].fence)
  {
    hide Granted, Agreed, Alerted, KeysUnique, CommandsUnique, Answered, RunNows;
    ClaimRunKeeps(cal, s, owner, seconds, now, pick, due);
    SelectAdvances(cal, s, now, pick, due);
    SelectedIsOn(cal, s, now, pick, due);
  }

  lemma SelectedIsOn(cal: Calendar, s: State, now: Time, pick: Option<nat>, due: seq<nat>)
    requires Valid(s)
    ensures var (t, r) := SelectRun(cal, s, now, pick, due);
            r.Some? ==> var job := t.jobs[t.runs[r.value].job]; job.desiredOn && !job.archived
  {
    hide Granted, Agreed, Alerted, KeysUnique, CommandsUnique, Answered, RunNows;
    var s1 := Sweep(s, now, 0);
    if FirstClaimable(s1, now, pick) && pick.None? && DueOrder(s1, now, due) {
      var chosen := Defer(cal, s1, now, due).1;
      if chosen.Some? { assert Due(s1, now, chosen.value); }
    }
  }

  /** While a claim stays current nobody has scheduled, switched or archived its job: the row is the one
      that was claimed, at every moment since. */
  lemma CurrentMeansUntouched(cal: Calendar, s: State, owner: Owner, seconds: int, now: Time, pick: Option<nat>, due: seq<nat>,
                              acts: seq<Action>, k: nat, later: Time)
    requires Valid(s) && k <= |acts|
    requires var (s', claim) := ClaimRun(cal, s, owner, seconds, now, pick, due);
             && claim.Some? && Valid(s')
             && RunClaimCurrent(History(cal, s', acts), claim.value, later)
    ensures var (s', claim) := ClaimRun(cal, s, owner, seconds, now, pick, due);
            var between := History(cal, s', acts[..k]);
            claim.value.job < |s.jobs| <= |between.jobs| && between.jobs[claim.value.job] == s.jobs[claim.value.job]
  {
    hide Granted, Agreed, Alerted, KeysUnique, CommandsUnique, Answered, RunNows, ClaimRun;
    var (s', claim) := ClaimRun(cal, s, owner, seconds, now, pick, due);
    ClaimGranted(cal, s, owner, seconds, now, pick, due);
    var j := claim.value.job;
    var m, t := History(cal, s', acts[..k]), History(cal, s', acts);
    HistoryAdvances(cal, s', acts[..k]);
    HistoryAdvances(cal, m, acts[k..]);
    HistorySplits(cal, s', acts, k);
    assert RowAdvances(s', m, j) && RowAdvances(m, t, j);
  }

  lemma {:induction false} HistorySplits(cal: Calendar, s: State, acts: seq<Action>, k: nat)
    requires Valid(s) && k <= |acts|
    ensures History(cal, s, acts) == History(cal, History(cal, s, acts[..k]), acts[k..])
    decreases k
  {
    hide Granted, Agreed, Alerted, KeysUnique, CommandsUnique, Answered, RunNows, Step;
    if k == 0 {
      assert acts[..0] == [] && acts[0..] == acts;
    } else {
      StepKeeps(cal, s, acts[0]);
      HistorySplits(cal, Step(cal, s, acts[0]), acts[1..], k - 1);
      assert acts[..k][1..] == acts[1..][..k - 1] && acts[k..] == acts[1..][k - 1..];
    }
  }

  // ----- Incidents

  function CountOf(alerts: seq<Alert>, transition: Transition): nat {
    if alerts == [] then 0
    else CountOf(alerts[..|alerts| - 1], transition) + if alerts[|alerts| - 1].transition == transition then 1 else 0
  }

  /** Alternating alerts are E(a) R(a) E(b) R(b) ...: an error at every even place, and at the odd place
      after it the recovery from the same incident. */
  lemma {:induction false} AlternatingShape(alerts: seq<Alert>, open: Option<nat>)
    requires Alternating(alerts, open)
    ensures CountOf(alerts, ToError) == CountOf(alerts, ToRecovery) + if open.Some? then 1 else 0
    ensures |alerts| % 2 == if open.Some? then 1 else 0
    ensures forall k | 0 <= k < |alerts| :: alerts[k].transition == if k % 2 == 0 then ToError else ToRecovery
    ensures forall k | 0 <= k < |alerts| && k % 2 == 1 :: alerts[k].incident == alerts[k - 1].incident
    ensures open.Some? ==> alerts[|alerts| - 1] == Alert(ToError, open.value)
    decreases |alerts|
  {
    if alerts != [] {
      var last := alerts[|alerts| - 1];
      AlternatingShape(alerts[..|alerts| - 1], if last.transition == ToError then None else Some(last.incident));
    }
  }

  /** Errors minus recoveries ever queued for the job is one while an incident is open and zero
      otherwise, and the alerts alternate in pairs of one incident each. */
  predicate AlertsPaired(s: State, j: nat)
    requires j < |s.runtimes|
  {
    var alerts := AlertsOf(s.outbox, j);
    && CountOf(alerts, ToError) == CountOf(alerts, ToRecovery) + (if s.runtimes[j].incident.Some? then 1 else 0)
    && (forall k | 0 <= k < |alerts| :: alerts[k].transition == if k % 2 == 0 then ToError else ToRecovery)
    && (forall k | 0 <= k < |alerts| && k % 2 == 1 :: alerts[k].incident == alerts[k - 1].incident)
  }

  ghost predicate KeysDistinct(outbox: seq<OutboxRow>) {
    forall a, b | 0 <= a < b < |outbox| :: KeyOf(outbox[a].notice) != KeyOf(outbox[b].notice)
  }

  lemma ReachableAlerts(cal: Calendar, acts: seq<Action>, j: nat)
    requires j < |Reached(cal, acts).jobs|
    ensures AlertsPaired(Reached(cal, acts), j)
    ensures KeysDistinct(Reached(cal, acts).outbox)
  {
    var s := Reached(cal, acts);
    AlternatingShape(AlertsOf(s.outbox, j), OpenIncident(s.runtimes[j]));
  }

  // ----- Commands

  lemma {:induction false} AnsweredSplits(runs: seq<Run>)
    ensures Answered(runs) == ManualRuns(runs) + Coalesced(runs)
  {
    if runs != [] { AnsweredSplits(runs[..|runs| - 1]); }
  }

  function ManualRuns(runs: seq<Run>): nat {
    if runs == [] then 0 else ManualRuns(runs[..|runs| - 1]) + if runs[|runs| - 1].trigger.Manual? then 1 else 0
  }

  function Coalesced(runs: seq<Run>): nat {
    if runs == [] then 0 else Coalesced(runs[..|runs| - 1]) + runs[|runs| - 1].coalesced
  }

  /** No accepted run-now command is lost or counted twice. */
  lemma RunNowConserved(cal: Calendar, acts: seq<Action>)
    ensures var s := Reached(cal, acts);
            RunNows(s.commands) == ManualRuns(s.runs) + Coalesced(s.runs)
  {
    AnsweredSplits(Reached(cal, acts).runs);
  }

  /** A command takes effect once.  Whatever happens in between, and whatever the clock, the queries and
      the dependencies say then, repeating an accepted command gives the first response and changes
      nothing, and reusing its name for another request is refused. */
  lemma CommandsTakeEffectOnce(cal: Calendar, s: State, key: string, request: Request, c: Context, acts: seq<Action>,
                               other: Request, c': Context)
    requires Valid(s) && Execute(s, key, request, c).Ok?
    requires other.actor.kind == request.actor.kind && other != request
    ensures var first := Execute(s, key, request, c);
            && Valid(first.state)
            && var t := History(cal, first.state, acts);
               && Execute(t, key, request, c') == Ok(t, first.value)
               && Execute(t, key, other, c').Err?
  {
    hide Granted, Agreed, Alerted, KeysUnique, Answered, RunNows, Mutate;
    var first := Execute(s, key, request, c);
    ExecuteKeeps(s, key, request, c);
    var u := first.state;
    var source := request.actor.kind;
    MutateAdvances(s, request, |s.commands|, c);
    var i := if HasCommand(s.commands, source, key) then FindCommand(s.commands, source, key) else |s.commands|;
    assert i < |u.commands| && Named(u.commands[i], source, key) && u.commands[i].request == request && u.commands[i].response == first.value;
    HistoryAdvances(cal, u, acts);
    var t := History(cal, u, acts);
    assert t.commands[i] == u.commands[i] && HasCommand(t.commands, source, key);
    NameIsUnique(t.commands, i, source, key);
  }

  lemma NamesDiffer(commands: seq<Command>, i: nat, k: nat)
    requires CommandsUnique(commands) && i < |commands| && k < |commands|
    requires commands[i].source == commands[k].source && commands[i].key == commands[k].key
    ensures i == k
  {
  }

  lemma NameIsUnique(commands: seq<Command>, i: nat, source: ActorKind, key: string)
    requires CommandsUnique(commands) && i < |commands| && Named(commands[i], source, key)
    ensures HasCommand(commands, source, key) && FindCommand(commands, source, key) == i
  {
    var k := FindCommand(commands, source, key);
    NamesDiffer(commands, i, k);
  }

  // ----- The global hold

  /** Nothing is claimed or reconciled under a hold, and no claim is current. */
  lemma HoldStops(cal: Calendar, s: State)
    requires Shaped(s) && s.hold.enabled
    ensures forall owner, seconds, now, pick, due :: ClaimRun(cal, s, owner, seconds, now, pick, due) == (s, None)
    ensures forall owner, seconds, now, pick :: ClaimOutbox(s, owner, seconds, now, pick) == (s, None)
    ensures forall now, pick :: Reconcile(cal, s, now, pick) == (s, Nothing)
    ensures forall c, now :: !RunClaimCurrent(s, c, now)
    ensures forall d, now :: !DeliveryCurrent(s, d, now)
  {
  }

  ghost predicate HeldThroughout(cal: Calendar, s: State, acts: seq<Action>)
    requires Valid(s)
  {
    forall k | 0 <= k <= |acts| :: History(cal, s, acts[..k]).hold.enabled
  }

  /** The rows that existed before are as they were, and no token was handed out. */
  ghost predicate Frozen(s: State, t: State)
    requires Shaped(s) && Shaped(t)
  {
    && s.jobs <= t.jobs
    && (forall j | 0 <= j < |s.jobs| :: t.runtimes[j].fence == s.runtimes[j].fence)
    && |s.outbox| <= |t.outbox|
    && (forall o | 0 <= o < |s.outbox| :: t.outbox[o].fence == s.outbox[o].fence)
  }

  lemma StepFrozen(cal: Calendar, s: State, a: Action)
    requires Valid(s) && s.hold.enabled
    ensures Valid(Step(cal, s, a)) && Frozen(s, Step(cal, s, a))
  {
    hide Granted, Agreed, Alerted, KeysUnique, CommandsUnique, Answered, RunNows, SelectRun;
    StepKeeps(cal, s, a);
  }

  /** From the step that sets the hold until the step that clears it, no claim is granted and no
      existing job changes. */
  lemma {:induction false} HoldFreezes(cal: Calendar, s: State, acts: seq<Action>)
    requires Valid(s) && HeldThroughout(cal, s, acts)
    ensures Frozen(s, History(cal, s, acts))
    decreases |acts|
  {
    hide Granted, Agreed, Alerted, KeysUnique, CommandsUnique, Answered, RunNows, Step;
    if acts != [] {
      assert acts[..0] == [];
      assert History(cal, s, acts[..0]).hold.enabled;
      StepFrozen(cal, s, acts[0]);
      var t := Step(cal, s, acts[0]);
      forall k | 0 <= k <= |acts[1..]| ensures History(cal, t, acts[1..][..k]).hold.enabled {
        assert acts[..k + 1][1..] == acts[1..][..k];
        assert History(cal, s, acts[..k + 1]).hold.enabled;
      }
      HoldFreezes(cal, t, acts[1..]);
    }
  }

  /** The state in which action `i` of a history finds the tables. */
  ghost function Before(cal: Calendar, s: State, acts: seq<Action>, i: nat): (t: State)
    requires Valid(s) && i <= |acts|
    ensures Valid(t)
  {
    History(cal, s, acts[..i])
  }

  lemma BeforeNext(cal: Calendar, s: State, acts: seq<Action>, i: nat)
    requires Valid(s) && i < |acts|
    ensures Shaped(s) && Valid(Step(cal, s, acts[0]))
    ensures Before(cal, s, acts, i + 1) == Before(cal, Step(cal, s, acts[0]), acts[1..], i)
    ensures Before(cal, s, acts, 0) == s
  {
    hide Valid, Step;
    ShapedOf(s);
    StepKeeps(cal, s, acts[0]);
    assert acts[..0] == [];
    assert acts[..i + 1][0] == acts[0] && acts[..i + 1][1..] == acts[1..][..i];
  }

  /** A command on the hold that is new and accepted. */
  ghost predicate SetsHold(s: State, a: Action) {
    && Shaped(s) && a.DoCommand? && a.request.op.SetGlobalHold?
    && !HasCommand(s.commands, a.request.actor.kind, a.key) && Execute(s, a.key, a.request, a.context).Ok?
  }

  ghost predicate ClearsHold(s: State, a: Action) {
    SetsHold(s, a) && !a.request.op.enabled
  }

  /** The hold is what the command asks for, and its owner is whoever turned it on. */
  predicate HeldAs(h: Hold, a: Action) {
    && a.DoCommand? && a.request.op.SetGlobalHold?
    && h.enabled == a.request.op.enabled && h.reason == a.request.op.reason
    && (h.enabled ==> h.owner == Some(a.request.actor) && h.attempt == a.request.op.attempt)
  }

  lemma StepSetsHold(cal: Calendar, s: State, a: Action)
    requires Valid(s) && Shaped(s)
    ensures SetsHold(s, a) ==> HeldAs(Step(cal, s, a).hold, a)
    ensures !SetsHold(s, a) ==> Step(cal, s, a).hold == s.hold
  {
    hide Valid, Mutate, SelectRun, OldestOutOfSync, FirstDeliverable;
    if a.DoCommand? { MutateHold(s, a.request, |s.commands|, a.context); }
    if a.DoClaimRun? { SelectAdvances(cal, s, a.now, a.pick, a.due); }
  }

  /** Only a command on the hold touches it. */
  lemma MutateHold(s: State, request: Request, command: nat, c: Context)
    requires Shaped(s)
    ensures var r, op := Mutate(s, request, command, c), request.op;
            r.Ok? ==>
              && (!op.SetGlobalHold? ==> r.state.hold == s.hold)
              && (op.SetGlobalHold? ==>
                    && r.state.hold.enabled == op.enabled && r.state.hold.reason == op.reason
                    && (op.enabled ==> r.state.hold.owner == Some(request.actor) && r.state.hold.attempt == op.attempt))
  {
    hide FirstCovering, LiveTemplate, AwaitsDelivery;
  }

  lemma {:induction false} UnsetHoldStays(cal: Calendar, s: State, acts: seq<Action>)
    requires Valid(s) && forall i | 0 <= i < |acts| :: !SetsHold(Before(cal, s, acts, i), acts[i])
    ensures History(cal, s, acts).hold == s.hold
    decreases |acts|
  {
    hide Valid, Step, SetsHold, Before;
    if acts != [] {
      BeforeNext(cal, s, acts, 0);
      StepSetsHold(cal, s, acts[0]);
      var t := Step(cal, s, acts[0]);
      forall i | 0 <= i < |acts[1..]| ensures !SetsHold(Before(cal, t, acts[1..], i), acts[1..][i]) {
        BeforeNext(cal, s, acts, i + 1);
        assert !SetsHold(Before(cal, s, acts, i + 1), acts[i + 1]);
        BeforeNext(cal, s, acts, i);
      }
      UnsetHoldStays(cal, t, acts[1..]);
    }
  }

  /** The hold is what the last accepted new command on it asked for. */
  lemma {:induction false} LastCommandHolds(cal: Calendar, s: State, acts: seq<Action>, k: nat)
    requires Valid(s) && k < |acts| && SetsHold(Before(cal, s, acts, k), acts[k])
    requires forall i | k < i < |acts| :: !SetsHold(Before(cal, s, acts, i), acts[i])
    ensures HeldAs(History(cal, s, acts).hold, acts[k])
    decreases k
  {
    hide Valid, Step, SetsHold, Before, HeldAs;
    BeforeNext(cal, s, acts, 0);
    var t := Step(cal, s, acts[0]);
    forall i | k <= i < |acts[1..]| ensures !SetsHold(Before(cal, t, acts[1..], i), acts[1..][i]) {
      BeforeNext(cal, s, acts, i);
      assert !SetsHold(Before(cal, s, acts, i + 1), acts[i + 1]);
    }
    if k == 0 {
      StepSetsHold(cal, s, acts[0]);
      UnsetHoldStays(cal, t, acts[1..]);
    } else {
      BeforeNext(cal, s, acts, k - 1);
      LastCommandHolds(cal, t, acts[1..], k - 1);
    }
  }

  /** From the command that turns the hold on, until one turns it off, no claim is granted and no existing job
      changes. */
  lemma HoldFreezesUntilCleared(cal: Calendar, s: State, a: Action, acts: seq<Action>)
    requires Valid(s) && SetsHold(s, a) && !ClearsHold(s, a) && Valid(Step(cal, s, a))
    requires forall i | 0 <= i < |acts| :: !ClearsHold(Before(cal, Step(cal, s, a), acts, i), acts[i])
    ensures var t := Step(cal, s, a);
            t.hold.enabled && History(cal, t, acts).hold.enabled && Frozen(t, History(cal, t, acts))
  {
    hide Valid, Step, Before, Frozen;
    StepSetsHold(cal, s, a);
    HeldOn(cal, Step(cal, s, a), acts);
  }

  lemma {:induction false} HeldOn(cal: Calendar, s: State, acts: seq<Action>)
    requires Valid(s) && s.hold.enabled && forall i | 0 <= i < |acts| :: !ClearsHold(Before(cal, s, acts, i), acts[i])
    ensures History(cal, s, acts).hold.enabled && Frozen(s, History(cal, s, acts))
    decreases |acts|
  {
    hide Granted, Agreed, Alerted, KeysUnique, CommandsUnique, Answered, RunNows, Step, Before;
    if acts != [] {
      BeforeNext(cal, s, acts, 0);
      StepSetsHold(cal, s, acts[0]);
      StepFrozen(cal, s, acts[0]);
      assert !ClearsHold(Before(cal, s, acts, 0), acts[0]);
      var t := Step(cal, s, acts[0]);
      forall i | 0 <= i < |acts[1..]| ensures !ClearsHold(Before(cal, t, acts[1..], i), acts[1..][i]) {
        BeforeNext(cal, s, acts, i);
        assert !ClearsHold(Before(cal, s, acts, i + 1), acts[i + 1]);
      }
      HeldOn(cal, t, acts[1..]);
    }
  }

  /** The request of the only actor who may end this release hold. */
  predicate Releases(a: Action, owner: Actor, attempt: nat) {
    && a.DoCommand?
    && a.request.actor == owner
    && a.request.op == SetGlobalHold(false, None, Some(attempt))
  }

  ghost predicate ReleaseHeld(h: Hold, owner: Actor, attempt: nat) {
    h.enabled && h.reason == Some(Release) && h.owner == Some(owner) && h.attempt == Some(attempt)
  }

  lemma StepHold(cal: Calendar, s: State, a: Action, owner: Actor, attempt: nat)
    requires Valid(s) && ReleaseHeld(s.hold, owner, attempt)
    ensures Step(cal, s, a).hold == s.hold || Releases(a, owner, attempt)
  {
    hide Granted, Agreed, Alerted, KeysUnique, CommandsUnique, Answered, RunNows, SelectRun;
  }

  /** A release hold is ended only by its own actor with its own attempt. */
  lemma {:induction false} ReleaseHoldIsOwned(cal: Calendar, s: State, acts: seq<Action>, owner: Actor, attempt: nat)
    requires Valid(s) && ReleaseHeld(s.hold, owner, attempt)
    requires History(cal, s, acts).hold != s.hold
    ensures exists i | 0 <= i < |acts| :: Releases(acts[i], owner, attempt)
    decreases |acts|
  {
    hide Granted, Agreed, Alerted, KeysUnique, CommandsUnique, Answered, RunNows, Step;
    if acts != [] {
      StepKeeps(cal, s, acts[0]);
      StepHold(cal, s, acts[0], owner, attempt);
      if !Releases(acts[0], owner, attempt) {
        ReleaseHoldIsOwned(cal, Step(cal, s, acts[0]), acts[1..], owner, attempt);
        var i :| 0 <= i < |acts[1..]| && Releases(acts[1..][i], owner, attempt);
        assert Releases(acts[i + 1], owner, attempt);
      }
    }
  }

  // ----- Reconciliation

  ghost function Pending(s: State): set<nat>
    requires Shaped(s)
  {
    set j | 0 <= j < |s.jobs| && OutOfSync(s, j)
  }

  /** A reconciliation settles exactly the job it picked, and does so exactly when no lease holds it:
      a leased job at the head of the line keeps every other one waiting. */
  lemma ReconcileSettlesPick(cal: Calendar, s: State, now: Time, j: nat)
    requires Valid(s) && !s.hold.enabled && OldestOutOfSync(s, Some(j))
    ensures var (t, r) := Reconcile(cal, s, now, Some(j));
            && Shaped(t) && t.jobs == s.jobs && t.hold == s.hold
            && (forall k | 0 <= k < |s.jobs| :: t.runtimes[k].lease == s.runtimes[k].lease)
            && (r == Applied(j) <==> LeaseFree(s.runtimes[j].lease, now))
            && Pending(t) == (if LeaseFree(s.runtimes[j].lease, now) then Pending(s) - {j} else Pending(s))
  {
    hide Granted, Agreed, Alerted, KeysUnique, CommandsUnique, Answered, RunNows;
    ReconcileKeeps(cal, s, now, Some(j));
    var t := Reconcile(cal, s, now, Some(j)).0;
    forall k | 0 <= k < |s.jobs|
      ensures OutOfSync(t, k) == if k == j && LeaseFree(s.runtimes[j].lease, now) then false else OutOfSync(s, k)
    {
    }
  }

  /** Reconciles as often as there are clock readings, each time with the job the query returns, and
      counts the applications. */
  ghost function Reconciliations(cal: Calendar, s: State, nows: seq<Time>, picks: seq<Option<nat>>): (r: (State, nat))
    requires Valid(s) && |nows| == |picks|
    ensures Valid(r.0)
    decreases |nows|
  {
    if nows == [] then (s, 0)
    else
      var (t, r) := Reconcile(cal, s, nows[0], picks[0]);
      ReconcileKeeps(cal, s, nows[0], picks[0]);
      var (u, n) := Reconciliations(cal, t, nows[1..], picks[1..]);
      (u, n + if r.Applied? then 1 else 0)
  }

  /** Every pick is an answer the query may give in the state it is asked in. */
  ghost predicate PicksAnswer(cal: Calendar, s: State, nows: seq<Time>, picks: seq<Option<nat>>)
    requires Valid(s) && |nows| == |picks|
    decreases |nows|
  {
    nows != [] ==>
      && OldestOutOfSync(s, picks[0])
      && (ReconcileKeeps(cal, s, nows[0], picks[0]);
          PicksAnswer(cal, Reconcile(cal, s, nows[0], picks[0]).0, nows[1..], picks[1..]))
  }

  /** With no hold and no active lease, the applications are exactly the jobs out of sync, and after
      that many turns every job is in sync. */
  lemma {:induction false} ReconciliationConverges(cal: Calendar, s: State, nows: seq<Time>, picks: seq<Option<nat>>)
    requires Valid(s) && |nows| == |picks| && |nows| >= |Pending(s)|
    requires !s.hold.enabled && PicksAnswer(cal, s, nows, picks)
    requires forall n, j | 0 <= n < |nows| && 0 <= j < |s.jobs| :: LeaseFree(s.runtimes[j].lease, nows[n])
    ensures var (t, applications) := Reconciliations(cal, s, nows, picks);
            Pending(t) == {} && applications == |Pending(s)|
    decreases |nows|
  {
    hide Granted, Agreed, Alerted, KeysUnique, CommandsUnique, Answered, RunNows, Reconcile;
    if nows != [] {
      ReconcileKeeps(cal, s, nows[0], picks[0]);
      var (t, r) := Reconcile(cal, s, nows[0], picks[0]);
      if picks[0].Some? {
        ReconcileSettlesPick(cal, s, nows[0], picks[0].value);
        assert picks[0].value in Pending(s);
        assert |Pending(t)| == |Pending(s)| - 1;
      } else {
        NothingPending(cal, s, nows[0]);
      }
      ReconciliationConverges(cal, t, nows[1..], picks[1..]);
    }
  }

  lemma NothingPending(cal: Calendar, s: State, now: Time)
    requires Shaped(s) && OldestOutOfSync(s, None)
    ensures Pending(s) == {} && Reconcile(cal, s, now, None) == (s, Nothing)
  {
  }

  /** The runtime row of a job agrees with what was asked for. */
  ghost predicate RuntimeAgrees(s: State, j: nat)
    requires Shaped(s) && j < |s.jobs|
  {
    var job, rt := s.jobs[j], s.runtimes[j];
    && rt.applied <= job.revision
    && (!job.desiredOn ==> rt.nextRun.None? && forall i | 0 <= i < |s.runs| && s.runs[i].job == j :: s.runs[i].status != Queued)
    && (job.desiredOn && rt.applied == job.revision ==> rt.nextRun.Some?)
    && (forall i, k | 0 <= i < k < |s.runs| && s.runs[i].job == j && s.runs[k].job == j ::
          s.runs[i].status != Queued || s.runs[k].status != Queued)
  }

  lemma ReachableAgreement(cal: Calendar, acts: seq<Action>, j: nat)
    requires j < |Reached(cal, acts).jobs|
    ensures RuntimeAgrees(Reached(cal, acts), j)
  {
    AgreesAt(Reached(cal, acts), j);
  }
}

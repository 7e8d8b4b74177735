/** One turn of a daemon's scheduler: it settles a changed job, or else delivers a notification, or else
starts a run. */
module Scheduler {
  import opened Options
  import opened Tables
  import opened Steps
  import opened Invariants
  import opened Preservation
  import opened Histories
  import opened Store

  datatype Turn = Settled(result: Reconciled) | Delivering(delivery: Delivery) | Starting(claim: Claim) | Resting

  /** The clock readings and query answers of the three transactions of a turn. */
  datatype Readings = Readings(
    reconcileAt: Time, oldest: Option<nat>,
    deliverAt: Time, delivery: Option<nat>,
    startAt: Time, queued: Option<nat>, due: seq<nat>)

  lemma DeliveryValid(cal: Calendar, s: State, owner: Owner, seconds: int, now: Time, pick: Option<nat>)
    requires Valid(s)
    ensures Valid(ClaimOutbox(s, owner, seconds, now, pick).0)
  {
    hide Valid, ClaimOutbox;
    StepKeeps(cal, s, DoClaimOutbox(owner, seconds, now, pick));
  }

  ghost function StartOf(cal: Calendar, s: State, owner: Owner, seconds: int, x: Readings): (r: (State, Turn))
    requires Valid(s)
    ensures Valid(r.0)
  {
    ClaimRunKeeps(cal, s, owner, seconds, x.startAt, x.queued, x.due);
    var (t, claim) := ClaimRun(cal, s, owner, seconds, x.startAt, x.queued, x.due);
    (t, if claim.Some? then Starting(claim.value) else Resting)
  }

  ghost function DeliverOf(cal: Calendar, s: State, owner: Owner, seconds: int, x: Readings, second: seq<Action>): (r: (State, Turn))
    requires Valid(s)
    ensures Valid(r.0)
  {
    DeliveryValid(cal, s, owner, seconds, x.deliverAt, x.delivery);
    var (t, delivery) := ClaimOutbox(s, owner, seconds, x.deliverAt, x.delivery);
    if delivery.Some? then (t, Delivering(delivery.value)) else StartOf(cal, History(cal, t, second), owner, seconds, x)
  }

  /** Other processes may change the tables between the three transactions. */
  ghost function TurnOf(cal: Calendar, s: State, owner: Owner, seconds: int, x: Readings, first: seq<Action>, second: seq<Action>): (r: (State, Turn))
    requires Valid(s)
    ensures Valid(r.0)
  {
    ReconcileKeeps(cal, s, x.reconcileAt, x.oldest);
    var (t, settled) := Reconcile(cal, s, x.reconcileAt, x.oldest);
    if settled != Nothing then (t, Settled(settled)) else DeliverOf(cal, History(cal, t, first), owner, seconds, x, second)
  }

  /** Without a hold, a turn claims something only after it saw every job in sync. */
  lemma ClaimsOnlyInSync(cal: Calendar, s: State, owner: Owner, seconds: int, x: Readings, first: seq<Action>, second: seq<Action>)
    requires Valid(s) && Shaped(s) && OldestOutOfSync(s, x.oldest) && !s.hold.enabled
    requires var turn := TurnOf(cal, s, owner, seconds, x, first, second).1; turn.Delivering? || turn.Starting?
    ensures Promises.Pending(s) == {}
  {
    hide Valid, ClaimOutbox, ClaimRun;
  }

  /** The readings of every turn fall within the lease of the job that has waited longest. */
  ghost predicate Within(s: State, j: nat, turns: seq<Readings>)
    requires Shaped(s)
  {
    && j < |s.jobs| && s.runtimes[j].lease.Some? && OldestOutOfSync(s, Some(j))
    && forall n | 0 <= n < |turns| :: turns[n].oldest == Some(j) && turns[n].reconcileAt < s.runtimes[j].lease.value.until
  }

  ghost function Turns(cal: Calendar, s: State, owner: Owner, seconds: int, turns: seq<Readings>): (r: (State, seq<Turn>))
    requires Valid(s)
    ensures Valid(r.0)
    decreases |turns|
  {
    if turns == [] then (s, [])
    else
      var (t, turn) := TurnOf(cal, s, owner, seconds, turns[0], [], []);
      var (u, rest) := Turns(cal, t, owner, seconds, turns[1..]);
      (u, [turn] + rest)
  }

  /** The tables that the last two transactions of a turn find. */
  ghost function AtDelivery(cal: Calendar, s: State, x: Readings, first: seq<Action>): (t: State)
    requires Valid(s)
    ensures Valid(t)
  {
    ReconcileKeeps(cal, s, x.reconcileAt, x.oldest);
    History(cal, Reconcile(cal, s, x.reconcileAt, x.oldest).0, first)
  }

  ghost function AtStart(cal: Calendar, s: State, owner: Owner, seconds: int, x: Readings, first: seq<Action>, second: seq<Action>): (t: State)
    requires Valid(s)
    ensures Valid(t)
  {
    var found := AtDelivery(cal, s, x, first);
    DeliveryValid(cal, found, owner, seconds, x.deliverAt, x.delivery);
    History(cal, ClaimOutbox(found, owner, seconds, x.deliverAt, x.delivery).0, second)
  }

  /** What a turn says is what it did: it settles a job, or it settles none and delivers, or it does neither and
      starts a run, or it rests with nothing to settle, deliver or start. */
  lemma TurnTells(cal: Calendar, s: State, owner: Owner, seconds: int, x: Readings, first: seq<Action>, second: seq<Action>)
    requires Valid(s) && Shaped(s)
    ensures var (t, turn) := TurnOf(cal, s, owner, seconds, x, first, second);
            var (afterSettling, settled) := Reconcile(cal, s, x.reconcileAt, x.oldest);
            var found, last := AtDelivery(cal, s, x, first), AtStart(cal, s, owner, seconds, x, first, second);
            && Shaped(found) && Shaped(last)
            && var (afterClaim, delivery) := ClaimOutbox(found, owner, seconds, x.deliverAt, x.delivery);
               var (afterStart, claim) := ClaimRun(cal, last, owner, seconds, x.startAt, x.queued, x.due);
               match turn
               case Settled(result) => settled == result != Nothing && t == afterSettling
               case Delivering(d) => settled == Nothing && delivery == Some(d) && t == afterClaim
               case Starting(c) => settled == Nothing && delivery.None? && claim == Some(c) && t == afterStart
               case Resting => settled == Nothing && delivery.None? && claim.None? && t == afterStart
  {
    hide Valid, ClaimOutbox, ClaimRun, Reconcile;
    ReconcileKeeps(cal, s, x.reconcileAt, x.oldest);
    ShapedOf(AtDelivery(cal, s, x, first));
    var last := AtStart(cal, s, owner, seconds, x, first, second);
    ShapedOf(last);
    var claim := ClaimRun(cal, last, owner, seconds, x.startAt, x.queued, x.due).1;
    assert claim.Some? || claim.None?;
  }

  /** A run is started only after the turn saw no notification that could be delivered. */
  lemma StartsOnlyDelivered(cal: Calendar, s: State, owner: Owner, seconds: int, x: Readings, first: seq<Action>, second: seq<Action>)
    requires Valid(s) && Shaped(s) && TurnOf(cal, s, owner, seconds, x, first, second).1.Starting?
    requires 10 <= seconds <= 600
    ensures var found := AtDelivery(cal, s, x, first);
            && Shaped(found)
            && (!found.hold.enabled && FirstDeliverable(found, x.deliverAt, x.delivery) ==>
                  forall o | 0 <= o < |found.outbox| :: !Deliverable(found, x.deliverAt, o))
  {
    hide Valid, ClaimRun, Reconcile, TurnOf, AtDelivery, AtStart, Deliverable;
    TurnTells(cal, s, owner, seconds, x, first, second);
  }

  /** What a turn held up by job `j` changes: the standing of `j`, and neither its lease nor what is applied. */
  ghost predicate OnlyWaits(s: State, t: State, j: nat)
    requires Shaped(s) && Shaped(t) && j < |s.jobs|
  {
    && t == s.(runtimes := t.runtimes) && |t.runtimes| == |s.runtimes|
    && (forall k | 0 <= k < |s.jobs| && k != j :: t.runtimes[k] == s.runtimes[k])
    && t.runtimes[j].lease == s.runtimes[j].lease && t.runtimes[j].applied == s.runtimes[j].applied
  }

  /** Whatever else goes on, a turn is held up by a job exactly when there is no hold and the job is the
      oldest of the changed ones and still under a lease. */
  lemma HeldUpExactly(cal: Calendar, s: State, owner: Owner, seconds: int, x: Readings, first: seq<Action>, second: seq<Action>, j: nat)
    requires Valid(s) && Shaped(s) && OldestOutOfSync(s, x.oldest)
    ensures var (t, turn) := TurnOf(cal, s, owner, seconds, x, first, second);
            && (turn == Settled(Blocked(j))
                <==> !s.hold.enabled && x.oldest == Some(j) && j < |s.jobs| && LeaseActive(s.runtimes[j], x.reconcileAt))
            && (turn == Settled(Blocked(j)) ==> Shaped(t) && OnlyWaits(s, t, j))
  {
    hide Valid, DeliverOf;
    ReconcileKeeps(cal, s, x.reconcileAt, x.oldest);
    NeverBlocks(cal, History(cal, Reconcile(cal, s, x.reconcileAt, x.oldest).0, first), owner, seconds, x, second);
  }

  lemma NeverBlocks(cal: Calendar, s: State, owner: Owner, seconds: int, x: Readings, second: seq<Action>)
    requires Valid(s)
    ensures !DeliverOf(cal, s, owner, seconds, x, second).1.Settled?
  {
    hide Valid, ClaimOutbox, ClaimRun;
  }

  /** A changed job whose lease is still running stops everything else: as long as its lease lasts, no
      turn settles another job, delivers a notification or starts a run. */
  lemma {:induction false} LeaseStopsTheLine(cal: Calendar, s: State, owner: Owner, seconds: int, turns: seq<Readings>, j: nat)
    requires Valid(s) && Shaped(s) && !s.hold.enabled && Within(s, j, turns)
    ensures var (t, results) := Turns(cal, s, owner, seconds, turns);
            && |results| == |turns| && (forall n | 0 <= n < |turns| :: results[n] == Settled(Blocked(j)))
            && t == s.(runtimes := t.runtimes)
            && |t.runtimes| == |s.runtimes| && forall k | 0 <= k < |s.jobs| && k != j :: t.runtimes[k] == s.runtimes[k]
    decreases |turns|
  {
    hide Valid, TurnOf, OldestOutOfSync;
    if turns != [] {
      assert turns[0].oldest == Some(j);
      WithinOne(s, j, turns);
      HeldUpExactly(cal, s, owner, seconds, turns[0], [], [], j);
      var t := TurnOf(cal, s, owner, seconds, turns[0], [], []).0;
      WithinRest(s, t, j, turns);
      LeaseStopsTheLine(cal, t, owner, seconds, turns[1..], j);
    }
  }

  lemma WithinOne(s: State, j: nat, turns: seq<Readings>)
    requires Shaped(s) && Within(s, j, turns) && turns != []
    ensures Within(s, j, [turns[0]])
  {
  }

  lemma WithinRest(s: State, t: State, j: nat, turns: seq<Readings>)
    requires Shaped(s) && Shaped(t) && Within(s, j, turns) && turns != []
    requires t.jobs == s.jobs && (forall k | 0 <= k < |s.jobs| && k != j :: t.runtimes[k] == s.runtimes[k])
    requires t.runtimes[j].lease == s.runtimes[j].lease && t.runtimes[j].applied == s.runtimes[j].applied
    ensures Within(t, j, turns[1..])
  {
    assert forall k | 0 <= k < |s.jobs| :: OutOfSync(t, k) == OutOfSync(s, k);
  }

  /** The turn as the daemon takes it, on its own. */
  method TakeTurn(store: AutomationStore, owner: Owner, seconds: int, x: Readings) returns (turn: Turn)
    requires 10 <= seconds <= 600
    requires Valid(store.Snapshot()) && OldestOutOfSync(store.Snapshot(), x.oldest)
    requires var s1 := Reconcile(store.cal, store.Snapshot(), x.reconcileAt, x.oldest).0;
             && Valid(s1) && FirstDeliverable(s1, x.deliverAt, x.delivery)
             && var s2 := ClaimOutbox(s1, owner, seconds, x.deliverAt, x.delivery).0;
             && Valid(s2) && FirstClaimable(Sweep(s2, x.startAt, 0), x.startAt, x.queued)
             && (x.queued.None? ==> DueOrder(Sweep(s2, x.startAt, 0), x.startAt, x.due))
    modifies store
    ensures Valid(old(store.Snapshot()))
    ensures (store.Snapshot(), turn) == TurnOf(store.cal, old(store.Snapshot()), owner, seconds, x, [], [])
  {
    hide Valid, ClaimOutbox, ClaimRun, Reconcile, FirstDeliverable, FirstClaimable, DueOrder, OldestOutOfSync, Sweep;
    var settled := store.ReconcileNextJob(x.reconcileAt, x.oldest);
    if settled != Nothing { return Settled(settled); }
    var delivery := store.ClaimDelivery(owner, seconds, x.deliverAt, x.delivery);
    if delivery.value.Some? { return Delivering(delivery.value.value); }
    var claim := store.ClaimNextRun(owner, seconds, x.startAt, x.queued, x.due);
    return if claim.value.Some? then Starting(claim.value.value) else Resting;
  }
}

/** The delivery of queued notifications: workers of several daemons over one outbox and one bridge.

Every call is one move; a worker may pause or crash between two calls, and a send may take effect
after its caller gave up.  `sends` and `delivered` record history. */
module OutboxDelivery {
  import opened Options
  import opened Tables
  import opened Steps
  import opened Invariants
  import opened Histories

  datatype Pc =
    | Deciding       // just claimed
    | LookingUp      // recovery: ask the bridge what became of the send
    | FirstCheck
    | Previewing
    | SecondCheck
    | Applying
    | Awaiting       // sent; the reply is still out
    | Finishing(sent: bool)
    | Cancelling
    | Blocking
    | Stopped

  datatype Worker = Worker(claim: Delivery, pc: Pc)

  /** A send that may have delivered. */
  datatype Send = Send(row: nat, token: nat)

  datatype World = World(
    store: State,
    workers: map<(nat, nat), Worker>,    // one for each claim: row and token
    sends: seq<Send>,
    delivered: set<nat>)

  type Id = (nat, nat)

  datatype Move =
    | Elsewhere(a: Action)
    | Claims(owner: Owner, seconds: int, now: Time, pick: Option<nat>)
    | Crashes(id: Id)
    | Decides(id: Id)
    | LooksUp(id: Id, found: bool)
    | Checks(id: Id, now: Time)
    | Previews(id: Id, token: bool)
    | Applies(id: Id, refused: bool)
    | Replies(id: Id, verified: bool)
    | Finishes(id: Id, code: Code, retry: int, now: Time)
    | Cancels(id: Id, code: Code, now: Time)
    | Blocks(id: Id, code: Code, now: Time)
    | Delivers(send: nat)

  function At(w: World, id: Id, pc: Pc): World
    requires id in w.workers
  {
    w.(workers := w.workers[id := w.workers[id].(pc := pc)])
  }

  /** The daemon has a text for test notifications and for the incidents of CRM digest jobs. */
  predicate Renderable(s: State, o: nat)
    requires Shaped(s) && o < |s.outbox|
  {
    s.outbox[o].notice.TestNotice? || s.jobs[s.outbox[o].job].template == CrmDigest
  }

  function Acts(w: World, m: Move, id: Id): World
    requires id in w.workers && Shaped(w.store)
  {
    var me := w.workers[id];
    var c := me.claim;
    match m
    case Crashes(_) => At(w, id, Stopped)
    case Decides(_) =>
      if me.pc != Deciding || c.row >= |w.store.outbox| then w
      else if !Renderable(w.store, c.row) then At(w, id, Finishing(false))
      else At(w, id, if c.recovery then LookingUp else FirstCheck)
    case LooksUp(_, found) =>
      if me.pc != LookingUp then w
      else At(w, id, if found && id.0 in w.delivered then Finishing(true) else Blocking)
    case Checks(_, now) =>
      if me.pc == FirstCheck then At(w, id, if DeliveryCurrent(w.store, c, now) then Previewing else Cancelling)
      else if me.pc == SecondCheck then At(w, id, if DeliveryCurrent(w.store, c, now) then Applying else Cancelling)
      else w
    case Previews(_, token) =>
      if me.pc != Previewing then w else At(w, id, if token then SecondCheck else Finishing(false))
    case Applies(_, refused) =>
      if me.pc != Applying then w
      else if refused then At(w, id, Finishing(false))
      else At(w.(sends := w.sends + [Send(id.0, id.1)]), id, Awaiting)
    case Replies(_, verified) =>
      if me.pc != Awaiting then w
      else At(w, id, if verified && id.0 in w.delivered then Finishing(true) else Stopped)
    case Finishes(_, code, retry, now) =>
      if !me.pc.Finishing? then w
      else At(w.(store := FinishDelivery(w.store, id.0, c.owner, id.1, me.pc.sent, code, retry, now).0), id, Stopped)
    case Cancels(_, code, now) =>
      if me.pc != Cancelling then w
      else At(w.(store := CancelDelivery(w.store, id.0, c.owner, id.1, code, now).0), id, Stopped)
    case Blocks(_, code, now) =>
      if me.pc != Blocking then w
      else At(w.(store := BlockDelivery(w.store, id.0, c.owner, id.1, code, now).0), id, Stopped)
    case _ => w
  }

  /** Only a worker finishes, cancels or blocks a delivery. */
  predicate Private(a: Action) {
    a.DoClaimOutbox? || a.DoCancelDelivery? || a.DoBlockDelivery? || a.DoFinishDelivery?
  }

  ghost function Do(cal: Calendar, w: World, m: Move): World
    requires Shaped(w.store)
  {
    match m
    case Elsewhere(a) => if Private(a) then w else w.(store := Step(cal, w.store, a))
    case Claims(owner, seconds, now, pick) =>
      var (s, claim) := ClaimOutbox(w.store, owner, seconds, now, pick);
      if claim.None? then w.(store := s)
      else w.(store := s, workers := w.workers[(claim.value.row, claim.value.token) := Worker(claim.value, Deciding)])
    case Delivers(k) => if k < |w.sends| then w.(delivered := w.delivered + {w.sends[k].row}) else w
    case _ => if m.id in w.workers then Acts(w, m, m.id) else w
  }

  // ----- The invariant

  ghost predicate SentRow(w: World, o: nat) {
    exists k :: 0 <= k < |w.sends| && w.sends[k].row == o
  }

  /** A claim of an unsent row that may still send. */
  predicate Open(me: Worker) {
    !me.claim.recovery && me.pc in {Deciding, FirstCheck, Previewing, SecondCheck, Applying}
  }

  /** Whatever happens to the leases, an unsent row with an open claim stays in transit. */
  ghost predicate OpenSound(w: World, id: Id)
    requires Shaped(w.store) && id in w.workers && id.0 < |w.store.outbox|
  {
    Open(w.workers[id]) && Renderable(w.store, id.0) ==>
      && w.store.outbox[id.0].status == InTransit
      && !SentRow(w, id.0)
      && forall k | k in w.workers && k != id && k.0 == id.0 :: !Open(w.workers[k])
  }

  /** Only the newest claim of a row acts on it; it gives the row back only when nothing was sent and
      nobody else may still send. */
  ghost predicate GivesBack(w: World, id: Id)
    requires Shaped(w.store) && id in w.workers && id.0 < |w.store.outbox|
  {
    var me := w.workers[id];
    me.pc in {Finishing(false), Cancelling} ==>
      && (Renderable(w.store, id.0) ==> !me.claim.recovery)
      && (id.1 == w.store.outbox[id.0].fence ==>
            && !SentRow(w, id.0)
            && (Renderable(w.store, id.0) ==> forall k | k in w.workers && k.0 == id.0 :: !Open(w.workers[k])))
  }

  ghost predicate WorkerSound(w: World, id: Id)
    requires Shaped(w.store) && id in w.workers
  {
    var me := w.workers[id];
    && id.0 < |w.store.outbox|
    && me.claim.row == id.0 && me.claim.token == id.1 && id.1 <= w.store.outbox[id.0].fence
    && (me.pc in {FirstCheck, Previewing, SecondCheck, Applying, Cancelling} ==> !me.claim.recovery && Renderable(w.store, id.0))
    && (me.pc in {LookingUp, Blocking} ==> me.claim.recovery)
    && (me.pc == Finishing(true) ==> id.0 in w.delivered)
    && OpenSound(w, id)
    && GivesBack(w, id)
  }

  ghost predicate RowSound(w: World, o: nat)
    requires Shaped(w.store) && o < |w.store.outbox|
  {
    var row := w.store.outbox[o];
    && (SentRow(w, o) ==> row.status in {InTransit, Sent} && Renderable(w.store, o))
    && (row.status == Sent ==> o in w.delivered)
    && (o in w.delivered ==> SentRow(w, o))
  }

  ghost predicate WorldValid(w: World) {
    && Valid(w.store)
    && Shaped(w.store)
    && (forall k | 0 <= k < |w.sends| :: w.sends[k].row < |w.store.outbox|)
    && (forall o | o in w.delivered :: o < |w.store.outbox|)
    && (forall a, b | 0 <= a < b < |w.sends| :: w.sends[a].row != w.sends[b].row)
    && (forall o | 0 <= o < |w.store.outbox| :: RowSound(w, o))
    && (forall id | id in w.workers :: WorkerSound(w, id))
  }

  // ----- The store around the workers

  /** What any other transaction may do to a row: drop it while nobody delivers it. */
  predicate RowMoves(a: OutboxRow, b: OutboxRow) {
    b == a || (a.status in {Pending, Undelivered} && b.status == Dropped && b == a.(status := Dropped, result := b.result, lease := None))
  }

  ghost predicate OutboxFollows(s: State, t: State) {
    && |s.outbox| <= |t.outbox|
    && (forall o | 0 <= o < |s.outbox| :: RowMoves(s.outbox[o], t.outbox[o]))
    && (forall o | |s.outbox| <= o < |t.outbox| :: t.outbox[o].status == Pending && t.outbox[o].fence == 0)
  }

  /** Only new intents, none of them claimed. */
  ghost predicate OutboxGrows(s: State, t: State) {
    s.outbox <= t.outbox && forall o | |s.outbox| <= o < |t.outbox| :: t.outbox[o].status == Pending && t.outbox[o].fence == 0
  }

  lemma {:induction false} SweepOutbox(s: State, now: Time, j: nat)
    requires Shaped(s) && j <= |s.jobs|
    ensures OutboxGrows(s, Sweep(s, now, j))
    decreases |s.jobs| - j
  {
    if j < |s.jobs| { SweepOutbox(if Expired(s.runtimes[j], now) then ExpireClaim(s, j, now) else s, now, j + 1); }
  }

  lemma SelectOutbox(cal: Calendar, s: State, now: Time, pick: Option<nat>, due: seq<nat>)
    requires Shaped(s)
    ensures SelectRun(cal, s, now, pick, due).0.outbox == Sweep(s, now, 0).outbox
  {
    hide FirstClaimable;
    var s1 := Sweep(s, now, 0);
    if DueOrder(s1, now, due) { DeferAdvances(cal, s1, now, due); }
  }

  lemma MutateOutbox(s: State, request: Request, command: nat, c: Context)
    requires Shaped(s)
    ensures var r := Mutate(s, request, command, c); r.Ok? ==> OutboxFollows(s, r.state)
  {
    hide FirstCovering;
    match request.op {
      case Archive(_) =>
      case _ =>
    }
  }

  lemma GrowsFollows(s: State, t: State)
    requires OutboxGrows(s, t)
    ensures OutboxFollows(s, t)
  {
  }

  lemma ElsewhereOutbox(cal: Calendar, s: State, a: Action)
    requires Valid(s) && Shaped(s) && !Private(a)
    ensures OutboxFollows(s, Step(cal, s, a))
  {
    hide Valid, SelectRun, Mutate, OldestOutOfSync, OutboxFollows;
    GrowsFollows(s, s);
    if a.DoCommand? {
      MutateOutbox(s, a.request, |s.commands|, a.context);
      CommandFollows(s, a.key, a.request, a.context);
    } else {
      if a.DoClaimRun? {
        SweepOutbox(s, a.now, 0);
        SelectOutbox(cal, s, a.now, a.pick, a.due);
      }
      GrowsFollows(s, Step(cal, s, a));
    }
  }

  lemma CommandFollows(s: State, key: string, request: Request, c: Context)
    requires Shaped(s)
    ensures OutboxFollows(s, Kept(s, Execute(s, key, request, c)))
  {
    hide Mutate;
    MutateOutbox(s, request, |s.commands|, c);
  }

  // ----- Preservation

  lemma SentSame(w: World, w': World, o: nat)
    requires w'.sends == w.sends
    ensures SentRow(w', o) == SentRow(w, o)
  {
  }

  lemma RenderableFollows(s: State, t: State, o: nat)
    requires Shaped(s) && Shaped(t) && Advances(s, t) && o < |s.outbox| <= |t.outbox|
    requires s.outbox[o].job == t.outbox[o].job && s.outbox[o].notice == t.outbox[o].notice
    ensures Renderable(s, o) == Renderable(t, o)
  {
    assert RowAdvances(s, t, s.outbox[o].job);
  }

  lemma ElsewhereKeeps(cal: Calendar, w: World, a: Action)
    requires WorldValid(w) && !Private(a)
    ensures WorldValid(w.(store := Step(cal, w.store, a)))
  {
    hide Valid, Step, Advances;
    var s, t := w.store, Step(cal, w.store, a);
    var w' := w.(store := t);
    StepAdvances(cal, s, a);
    ShapedOf(t);
    ElsewhereOutbox(cal, s, a);
    FollowKeeps(w, w');
  }

  lemma FollowKeeps(w: World, w': World)
    requires WorldValid(w) && Valid(w'.store) && Shaped(w'.store)
    requires w' == w.(store := w'.store) && Advances(w.store, w'.store) && OutboxFollows(w.store, w'.store)
    ensures WorldValid(w')
  {
    hide Valid, Advances, Renderable, SentRow;
    forall o | 0 <= o < |w'.store.outbox| ensures RowSound(w', o) {
      SentSame(w, w', o);
      if o < |w.store.outbox| {
        assert RowSound(w, o) && RowMoves(w.store.outbox[o], w'.store.outbox[o]);
        RenderableFollows(w.store, w'.store, o);
      } else {
        NotSent(w, o);
      }
    }
    forall id | id in w'.workers ensures WorkerSound(w', id) {
      assert WorkerSound(w, id);
      SentSame(w, w', id.0);
      assert RowMoves(w.store.outbox[id.0], w'.store.outbox[id.0]);
      RenderableFollows(w.store, w'.store, id.0);
    }
  }

  lemma NotSent(w: World, o: nat)
    requires (forall k | 0 <= k < |w.sends| :: w.sends[k].row < |w.store.outbox|) && o >= |w.store.outbox|
    ensures !SentRow(w, o)
  {
  }

  /** One worker moves on; the tables, the sends and the deliveries stay. */
  lemma AtKeeps(w: World, id: Id, pc: Pc)
    requires WorldValid(w) && id in w.workers
    requires var me := w.workers[id];
      && (Open(me.(pc := pc)) ==> Open(me))
      && (pc in {FirstCheck, Previewing, SecondCheck, Applying, Cancelling} ==> !me.claim.recovery && Renderable(w.store, id.0))
      && (pc in {LookingUp, Blocking} ==> me.claim.recovery)
      && (pc == Finishing(true) ==> id.0 in w.delivered)
      && (pc in {Finishing(false), Cancelling} ==> id.1 == w.store.outbox[id.0].fence ==> Open(me) || !Renderable(w.store, id.0))
      && (pc == Finishing(false) ==> Renderable(w.store, id.0) ==> !me.claim.recovery)
    ensures WorldValid(At(w, id, pc))
  {
    hide Valid, Renderable, SentRow;
    var w' := At(w, id, pc);
    forall o | 0 <= o < |w'.store.outbox| ensures RowSound(w', o) { assert RowSound(w, o); SentSame(w, w', o); }
    assert WorkerSound(w, id) && RowSound(w, id.0);
    forall k | k in w'.workers ensures WorkerSound(w', k) {
      assert WorkerSound(w, k);
      SentSame(w, w', k.0);
      forall q | q in w'.workers && Open(w'.workers[q]) ensures Open(w.workers[q]) { }
    }
  }
}

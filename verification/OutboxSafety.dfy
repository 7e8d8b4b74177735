/** Every move keeps the invariant of the outbox delivery, and what follows for whole histories. */
module OutboxSafety {
  import opened Options
  import opened Tables
  import opened Steps
  import opened Invariants
  import opened Preservation
  import opened Histories
  import opened OutboxDelivery

  // ----- Claims

  lemma ClaimsKeeps(cal: Calendar, w: World, owner: Owner, seconds: int, now: Time, pick: Option<nat>)
    requires WorldValid(w)
    ensures Shaped(w.store) && WorldValid(Do(cal, w, Claims(owner, seconds, now, pick)))
  {
    hide Valid, SentRow, Renderable, FirstDeliverable, RowSound, WorkerSound;
    ShapedOf(w.store);
    var (s, claim) := ClaimOutbox(w.store, owner, seconds, now, pick);
    if claim.Some? {
      ClaimTakesDeliverable(w.store, owner, seconds, now, pick);
      StepKeeps(cal, w.store, DoClaimOutbox(owner, seconds, now, pick));
      NewClaimKeeps(w, s, claim.value);
    }
  }

  /** A claim hands out the next token of a row that is due, or of one left in transit. */
  ghost predicate Takes(s: State, t: State, d: Delivery) {
    && d.row < |s.outbox|
    && d.token == s.outbox[d.row].fence + 1
    && d.recovery == (s.outbox[d.row].status == InTransit)
    && (!d.recovery ==> s.outbox[d.row].status in {Pending, Undelivered})
    && t == s.(outbox := t.outbox)
    && (exists lease, attempts ::
          t.outbox == s.outbox[d.row := s.outbox[d.row].(status := InTransit, attempts := attempts, lease := lease, fence := d.token)])
  }

  lemma ClaimTakesDeliverable(s: State, owner: Owner, seconds: int, now: Time, pick: Option<nat>)
    requires Shaped(s) && ClaimOutbox(s, owner, seconds, now, pick).1.Some?
    ensures Takes(s, ClaimOutbox(s, owner, seconds, now, pick).0, ClaimOutbox(s, owner, seconds, now, pick).1.value)
  {
    var t := ClaimOutbox(s, owner, seconds, now, pick).0;
    var row, row' := s.outbox[pick.value], t.outbox[pick.value];
    assert row' == row.(status := InTransit, attempts := row'.attempts, lease := row'.lease, fence := row.fence + 1);
  }

  lemma RenderableSame(s: State, t: State, o: nat)
    requires Shaped(s) && Shaped(t) && o < |s.outbox| <= |t.outbox| && t.jobs == s.jobs
    requires s.outbox[o].job == t.outbox[o].job && s.outbox[o].notice == t.outbox[o].notice
    ensures Renderable(s, o) == Renderable(t, o)
  {
  }

  lemma NewClaimKeeps(w: World, s: State, d: Delivery)
    requires WorldValid(w) && Valid(s) && Shaped(s) && Takes(w.store, s, d)
    ensures WorldValid(w.(store := s, workers := w.workers[(d.row, d.token) := Worker(d, Deciding)]))
  {
    hide Valid, SentRow, Renderable;
    var id := (d.row, d.token);
    var w' := w.(store := s, workers := w.workers[id := Worker(d, Deciding)]);
    NoWorkerYet(w, id);
    forall o | 0 <= o < |s.outbox| ensures RowSound(w', o) {
      assert RowSound(w, o);
      SentSame(w, w', o);
      RenderableSame(w.store, s, o);
    }
    forall k | k in w'.workers ensures WorkerSound(w', k) {
      SentSame(w, w', k.0);
      RenderableSame(w.store, s, k.0);
      assert RowSound(w, k.0);
      if k == id {
        forall q | q in w.workers && q.0 == id.0 && Renderable(w.store, id.0) && Open(w.workers[q])
          ensures w.store.outbox[id.0].status == InTransit
        {
          assert WorkerSound(w, q);
        }
      } else {
        assert WorkerSound(w, k);
      }
    }
  }

  lemma NoWorkerYet(w: World, id: Id)
    requires Shaped(w.store) && id.0 < |w.store.outbox| && id.1 == w.store.outbox[id.0].fence + 1
    requires forall k | k in w.workers :: WorkerSound(w, k)
    ensures id !in w.workers
  {
    assert id in w.workers ==> WorkerSound(w, id);
  }

  // ----- Moves of one worker

  lemma QuietKeeps(w: World, m: Move, id: Id)
    requires WorldValid(w) && id in w.workers
    requires m.Crashes? || m.Decides? || m.LooksUp? || m.Checks? || m.Previews? || m.Replies?
    ensures WorldValid(Acts(w, m, id))
  {
    hide Valid, SentRow, Renderable, DeliveryCurrent, RowSound;
    assert WorkerSound(w, id);
    var pc := Acts(w, m, id).workers[id].pc;
    if Acts(w, m, id) != w { AtKeeps(w, id, pc); }
  }

  /** The one send of a row. */
  lemma AppliesKeeps(w: World, id: Id, refused: bool)
    requires WorldValid(w) && id in w.workers
    ensures WorldValid(Acts(w, Applies(id, refused), id))
  {
    hide Valid, SentRow, Renderable;
    assert WorkerSound(w, id);
    if w.workers[id].pc == Applying {
      if refused {
        AtKeeps(w, id, Finishing(false));
      } else {
        AtKeeps(w, id, Awaiting);
        NoOneElse(w, id);
        SendKeeps(At(w, id, Awaiting), Send(id.0, id.1));
      }
    }
  }

  /** Neither sends any more nor gives its row back. */
  predicate Idle(w: World, k: Id)
    requires k in w.workers && k.0 < |w.store.outbox|
  {
    !Open(w.workers[k]) && (w.workers[k].pc in {Finishing(false), Cancelling} ==> k.1 != w.store.outbox[k.0].fence)
  }

  lemma OthersIdle(w: World, id: Id, k: Id)
    requires WorldValid(w) && id in w.workers && k in w.workers && k.0 == id.0 && k != id
    requires w.workers[id].pc == Applying
    ensures k.0 < |w.store.outbox| && Idle(w, k)
  {
    assert WorkerSound(w, id) && WorkerSound(w, k);
  }

  lemma NoOneElse(w: World, id: Id)
    requires WorldValid(w) && id in w.workers && w.workers[id].pc == Applying
    ensures var w' := At(w, id, Awaiting);
            && id.0 < |w'.store.outbox| && Renderable(w'.store, id.0) && w'.store.outbox[id.0].status == InTransit
            && !SentRow(w', id.0)
            && (forall k | k in w'.workers && k.0 == id.0 :: Idle(w', k))
  {
    hide Valid, SentRow, Renderable;
    var w' := At(w, id, Awaiting);
    assert WorkerSound(w, id);
    SentSame(w, w', id.0);
    forall k | k in w'.workers && k.0 == id.0 ensures Idle(w', k) {
      if k != id { OthersIdle(w, id, k); }
    }
  }

  lemma SendKeeps(w: World, send: Send)
    requires WorldValid(w)
    requires send.row < |w.store.outbox| && Renderable(w.store, send.row) && w.store.outbox[send.row].status == InTransit
    requires !SentRow(w, send.row)
    requires forall k | k in w.workers && k.0 == send.row :: Idle(w, k)
    ensures WorldValid(w.(sends := w.sends + [send]))
  {
    hide Valid, Renderable;
    var w' := w.(sends := w.sends + [send]);
    forall o | 0 <= o < |w'.store.outbox| ensures RowSound(w', o) {
      assert RowSound(w, o);
      SentMore(w, send, o);
    }
    forall k | k in w'.workers ensures WorkerSound(w', k) {
      assert WorkerSound(w, k);
      SentMore(w, send, k.0);
      if k.0 == send.row { assert Idle(w, k); }
    }
  }

  lemma SentMore(w: World, send: Send, o: nat)
    ensures SentRow(w.(sends := w.sends + [send]), o) == (SentRow(w, o) || o == send.row)
  {
    var w' := w.(sends := w.sends + [send]);
    if SentRow(w, o) {
      var k :| 0 <= k < |w.sends| && w.sends[k].row == o;
      assert w'.sends[k].row == o;
    }
    assert w'.sends[|w.sends|] == send;
  }

  // ----- Settling a row

  /** A worker that still holds its row settles it: as sent, as certainly unsent, or as uncertain. */
  ghost predicate Settles(w: World, s: State, id: Id)
    requires id in w.workers
  {
    var pc := w.workers[id].pc;
    && s == w.store.(outbox := s.outbox)
    && id.0 < |w.store.outbox|
    && w.store.outbox[id.0].status == InTransit && w.store.outbox[id.0].fence == id.1
    && (exists row: OutboxRow ::
          && s.outbox == w.store.outbox[id.0 := row]
          && row == w.store.outbox[id.0].(status := row.status, result := row.result, nextAttempt := row.nextAttempt, lease := row.lease)
          && match pc
             case Finishing(sent) => row.status == if sent then Sent else Undelivered
             case Cancelling => row.status == Dropped
             case Blocking => row.status == InTransit
             case _ => false)
  }

  lemma SettleKeeps(w: World, s: State, id: Id)
    requires WorldValid(w) && id in w.workers && Valid(s) && Shaped(s) && Settles(w, s, id)
    ensures WorldValid(At(w.(store := s), id, Stopped))
  {
    hide Valid, SentRow, Renderable, RowSound, WorkerSound;
    SettleRows(w, s, id);
    var w' := At(w.(store := s), id, Stopped);
    forall k | k in w'.workers ensures WorkerSound(w', k) { SettleWorker(w, s, id, k); }
  }

  lemma SettleRows(w: World, s: State, id: Id)
    requires WorldValid(w) && id in w.workers && Shaped(s) && Settles(w, s, id)
    ensures var w' := At(w.(store := s), id, Stopped);
            forall o | 0 <= o < |s.outbox| :: RowSound(w', o)
  {
    hide Valid, SentRow, Renderable;
    var w' := At(w.(store := s), id, Stopped);
    assert WorkerSound(w, id) && RowSound(w, id.0);
    forall o | 0 <= o < |s.outbox| ensures RowSound(w', o) {
      assert RowSound(w, o);
      SentSame(w, w', o);
      RenderableSame(w.store, s, o);
    }
  }

  lemma SettleWorker(w: World, s: State, id: Id, k: Id)
    requires WorldValid(w) && id in w.workers && k in w.workers && Shaped(s) && Settles(w, s, id)
    ensures WorkerSound(At(w.(store := s), id, Stopped), k)
  {
    hide Valid, SentRow, Renderable;
    var w' := At(w.(store := s), id, Stopped);
    assert WorkerSound(w, id) && WorkerSound(w, k) && RowSound(w, id.0);
    SentSame(w, w', k.0);
    RenderableSame(w.store, s, k.0);
    forall q | q in w'.workers && Open(w'.workers[q]) ensures Open(w.workers[q]) { }
  }

  lemma SettlesKeep(cal: Calendar, w: World, m: Move, id: Id)
    requires WorldValid(w) && id in w.workers && (m.Finishes? || m.Cancels? || m.Blocks?)
    ensures WorldValid(Acts(w, m, id))
  {
    hide Valid, Step, Settles, WorkerSound, RowSound;
    var w' := Acts(w, m, id);
    if w' != w {
      if w'.store == w.store {
        AtKeeps(w, id, Stopped);
      } else {
        SettledValid(cal, w, m, id);
        ActsSettles(w, m, id);
        ShapedOf(w'.store);
        SettleKeeps(w, w'.store, id);
      }
    }
  }

  lemma SettledValid(cal: Calendar, w: World, m: Move, id: Id)
    requires WorldValid(w) && id in w.workers && (m.Finishes? || m.Cancels? || m.Blocks?)
    ensures Valid(Acts(w, m, id).store)
  {
    hide Valid, WorkerSound, RowSound, FinishDelivery, CancelDelivery, BlockDelivery;
    var me := w.workers[id];
    var owner := me.claim.owner;
    match m {
      case Finishes(_, code, retry, now) =>
        if me.pc.Finishing? { StepKeeps(cal, w.store, DoFinishDelivery(id.0, owner, id.1, me.pc.sent, code, retry, now)); }
      case Cancels(_, code, now) => StepKeeps(cal, w.store, DoCancelDelivery(id.0, owner, id.1, code, now));
      case Blocks(_, code, now) => StepKeeps(cal, w.store, DoBlockDelivery(id.0, owner, id.1, code, now));
      case _ =>
    }
  }

  lemma ActsSettles(w: World, m: Move, id: Id)
    requires Shaped(w.store) && id in w.workers && (m.Finishes? || m.Cancels? || m.Blocks?)
    requires Acts(w, m, id).store != w.store
    ensures Settles(w, Acts(w, m, id).store, id)
  {
    var s := Acts(w, m, id).store;
    assert s.outbox == w.store.outbox[id.0 := s.outbox[id.0]];
  }

  // ----- The whole protocol

  lemma DeliversKeeps(w: World, k: nat)
    requires WorldValid(w) && k < |w.sends|
    ensures WorldValid(w.(delivered := w.delivered + {w.sends[k].row}))
  {
    hide Valid, Renderable;
    var w' := w.(delivered := w.delivered + {w.sends[k].row});
    forall o | 0 <= o < |w'.store.outbox| ensures RowSound(w', o) { assert RowSound(w, o); SentSame(w, w', o); }
    forall q | q in w'.workers ensures WorkerSound(w', q) { assert WorkerSound(w, q); SentSame(w, w', q.0); }
  }

  /** The invariant of the protocol is inductive. */
  lemma DoKeeps(cal: Calendar, w: World, m: Move)
    requires WorldValid(w)
    ensures Shaped(w.store) && WorldValid(Do(cal, w, m))
  {
    hide WorldValid, Step, Acts, ClaimOutbox;
    WorldShaped(w);
    match m {
      case Elsewhere(a) => if !Private(a) { ElsewhereKeeps(cal, w, a); }
      case Claims(owner, seconds, now, pick) => ClaimsKeeps(cal, w, owner, seconds, now, pick);
      case Delivers(k) => if k < |w.sends| { DeliversKeeps(w, k); }
      case Applies(id, refused) => if id in w.workers { AppliesKeeps(w, id, refused); }
      case Finishes(id, _, _, _) => if id in w.workers { SettlesKeep(cal, w, m, id); }
      case Cancels(id, _, _) => if id in w.workers { SettlesKeep(cal, w, m, id); }
      case Blocks(id, _, _) => if id in w.workers { SettlesKeep(cal, w, m, id); }
      case _ => if m.id in w.workers { QuietKeeps(w, m, m.id); }
    }
  }

  lemma WorldShaped(w: World)
    requires WorldValid(w)
    ensures Shaped(w.store)
  {
  }

  // ----- Histories

  const GENESIS := World(EMPTY, map[], [], {})

  lemma GenesisValid()
    ensures WorldValid(GENESIS)
  {
    EmptyIsValid();
  }

  /** What a sequence of moves leads to. */
  ghost function Story(cal: Calendar, w: World, moves: seq<Move>): World
    decreases |moves|
  {
    if moves == [] || !Shaped(w.store) then w else Story(cal, Do(cal, w, moves[0]), moves[1..])
  }

  ghost function Told(cal: Calendar, moves: seq<Move>): World {
    Story(cal, GENESIS, moves)
  }

  lemma {:induction false} StoryValid(cal: Calendar, w: World, moves: seq<Move>)
    requires WorldValid(w)
    ensures WorldValid(Story(cal, w, moves))
    decreases |moves|
  {
    hide WorldValid, Do;
    if moves != [] && Shaped(w.store) {
      DoKeeps(cal, w, moves[0]);
      StoryValid(cal, Do(cal, w, moves[0]), moves[1..]);
    }
  }

  /** Every state that moves lead to from the start satisfies the invariant. */
  lemma ToldValid(cal: Calendar, moves: seq<Move>)
    ensures WorldValid(Told(cal, moves))
  {
    GenesisValid();
    StoryValid(cal, GENESIS, moves);
  }

  /** However many daemons claim a row, whenever leases run out and replies get lost, at most one send of
      it may have delivered. */
  lemma SentAtMostOnce(cal: Calendar, moves: seq<Move>, a: nat, b: nat)
    requires a < |Told(cal, moves).sends| && b < |Told(cal, moves).sends|
    requires Told(cal, moves).sends[a].row == Told(cal, moves).sends[b].row
    ensures a == b
  {
    hide Valid, RowSound, WorkerSound;
    ToldValid(cal, moves);
    SendsDistinct(Told(cal, moves), a, b);
  }

  lemma SendsDistinct(w: World, a: nat, b: nat)
    requires WorldValid(w) && a < |w.sends| && b < |w.sends| && w.sends[a].row == w.sends[b].row
    ensures a == b
  {
    hide Valid, RowSound, WorkerSound;
  }

  /** What a row's status says about the message is true: a pending, undelivered or dropped row was
      certainly never sent, and a sent one was delivered, by a send. */
  lemma StatusIsTrue(cal: Calendar, moves: seq<Move>, o: nat)
    requires o < |Told(cal, moves).store.outbox|
    ensures var w := Told(cal, moves);
            && (w.store.outbox[o].status in {Pending, Undelivered, Dropped} ==> !SentRow(w, o) && o !in w.delivered)
            && (w.store.outbox[o].status == Sent ==> o in w.delivered && SentRow(w, o))
  {
    hide Valid, WorkerSound, Story;
    ToldValid(cal, moves);
    assert RowSound(Told(cal, moves), o);
  }

  // ----- Blocked rows

  predicate Blocked(s: State, o: nat) {
    o < |s.outbox| && s.outbox[o].status == InTransit && s.outbox[o].lease.None?
  }

  lemma BlockedStays(cal: Calendar, w: World, m: Move, o: nat)
    requires WorldValid(w) && Shaped(w.store) && Blocked(w.store, o)
    ensures var t := Do(cal, w, m).store; o < |t.outbox| && t.outbox[o] == w.store.outbox[o]
  {
    hide Valid, RowSound, WorkerSound, Step, FirstDeliverable;
    if m.Elsewhere? && !Private(m.a) {
      ElsewhereOutbox(cal, w.store, m.a);
      assert RowMoves(w.store.outbox[o], Step(cal, w.store, m.a).outbox[o]);
    } else if m.Claims? && m.pick.Some? && FirstDeliverable(w.store, m.now, m.pick) {
      PickDeliverable(w.store, m.now, m.pick.value);
    }
  }

  lemma PickDeliverable(s: State, now: Time, o: nat)
    requires Shaped(s) && FirstDeliverable(s, now, Some(o))
    ensures o < |s.outbox| && Deliverable(s, now, o)
  {
  }

  /** A blocked row never changes again, whatever anyone does. */
  lemma {:induction false} BlockedForever(cal: Calendar, w: World, moves: seq<Move>, o: nat)
    requires WorldValid(w) && Blocked(w.store, o)
    ensures var t := Story(cal, w, moves).store; o < |t.outbox| && t.outbox[o] == w.store.outbox[o]
    decreases |moves|
  {
    hide WorldValid, Do;
    if moves != [] {
      DoKeeps(cal, w, moves[0]);
      BlockedStays(cal, w, moves[0], o);
      BlockedForever(cal, Do(cal, w, moves[0]), moves[1..], o);
    }
  }
}

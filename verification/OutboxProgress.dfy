/** What a claim of the outbox achieves: a good one sends its row and has it marked as sent, every other
answer settles the row without a send, and a send was previewed and found current before. */
module OutboxProgress {
  import opened Options
  import opened Tables
  import opened Steps
  import opened Invariants
  import opened OutboxDelivery
  import opened OutboxSafety

  /** The claim of the worker is current at `now`. */
  predicate Undisturbed(w: World, id: Id, now: Time)
    requires Shaped(w.store)
  {
    && id in w.workers && w.workers[id].claim.row == id.0 && w.workers[id].claim.token == id.1
    && DeliveryCurrent(w.store, w.workers[id].claim, now)
  }

  /** The row is in transit under the claim, whose lease runs at `now`. */
  predicate InReach(w: World, id: Id, now: Time) {
    && id in w.workers && w.workers[id].claim.row == id.0 && w.workers[id].claim.token == id.1
    && InHand(w.store, id.0, w.workers[id].claim.owner, id.1, now)
  }

  lemma CurrentInReach(w: World, id: Id, now: Time)
    requires Shaped(w.store) && Undisturbed(w, id, now)
    ensures InReach(w, id, now) && id.0 < |w.store.outbox|
  {
  }

  /** Only the row of the worker has changed, and only this worker has moved: it is through. */
  ghost predicate Through(w: World, u: World, id: Id) {
    && id in w.workers
    && u.store == w.store.(outbox := u.store.outbox) && |u.store.outbox| == |w.store.outbox|
    && (forall o | 0 <= o < |w.store.outbox| && o != id.0 :: u.store.outbox[o] == w.store.outbox[o])
    && u.workers == w.workers[id := w.workers[id].(pc := Stopped)]
  }

  // ----- Composing moves

  lemma {:induction false} StorySplits(cal: Calendar, w: World, a: seq<Move>, b: seq<Move>)
    requires WorldValid(w)
    ensures Story(cal, w, a + b) == Story(cal, Story(cal, w, a), b)
    decreases |a|
  {
    hide WorldValid, Do;
    if a == [] {
      assert a + b == b;
    } else {
      DoKeeps(cal, w, a[0]);
      assert (a + b)[0] == a[0] && (a + b)[1..] == a[1..] + b;
      StorySplits(cal, Do(cal, w, a[0]), a[1..], b);
    }
  }

  /** One more move at the front. */
  lemma Before(cal: Calendar, w: World, m: Move, rest: seq<Move>)
    requires Shaped(w.store)
    ensures Story(cal, w, [m] + rest) == Story(cal, Do(cal, w, m), rest)
  {
    hide Do;
    assert ([m] + rest)[0] == m && ([m] + rest)[1..] == rest;
  }

  lemma NoMoves(cal: Calendar, w: World)
    ensures Story(cal, w, []) == w
  {
  }

  lemma AtTwice(w: World, id: Id, a: Pc, b: Pc)
    requires id in w.workers
    ensures At(At(w, id, a), id, b) == At(w, id, b)
  {
  }

  // ----- A good claim sends

  /** The answers a worker needs take it from one call to the next, and the last one sends. */
  lemma GoodAnswers(cal: Calendar, w: World, id: Id, now: Time)
    requires Shaped(w.store) && Undisturbed(w, id, now)
    ensures var me := w.workers[id];
            && (me.pc == Deciding && Renderable(w.store, id.0) && !me.claim.recovery ==> Do(cal, w, Decides(id)) == At(w, id, FirstCheck))
            && (me.pc == FirstCheck ==> Do(cal, w, Checks(id, now)) == At(w, id, Previewing))
            && (me.pc == Previewing ==> Do(cal, w, Previews(id, true)) == At(w, id, SecondCheck))
            && (me.pc == SecondCheck ==> Do(cal, w, Checks(id, now)) == At(w, id, Applying))
            && (me.pc == Applying ==> Do(cal, w, Applies(id, false)) == At(w.(sends := w.sends + [Send(id.0, id.1)]), id, Awaiting))
  {
    CurrentInReach(w, id, now);
    hide DeliveryCurrent, Renderable;
  }

  /** A claim that stays current, of a row there is a text for, gets its send out. */
  lemma GoodClaimSends(cal: Calendar, w: World, id: Id, now: Time) returns (moves: seq<Move>)
    requires Shaped(w.store) && Undisturbed(w, id, now) && w.workers[id].pc == Deciding
    requires id.0 < |w.store.outbox| && Renderable(w.store, id.0) && !w.workers[id].claim.recovery
    ensures Story(cal, w, moves) == At(w.(sends := w.sends + [Send(id.0, id.1)]), id, Awaiting)
  {
    hide DeliveryCurrent, Renderable, Story, Do;
    var w1, w2, w3, w4 := At(w, id, FirstCheck), At(w, id, Previewing), At(w, id, SecondCheck), At(w, id, Applying);
    var u := At(w.(sends := w.sends + [Send(id.0, id.1)]), id, Awaiting);
    GoodAnswers(cal, w, id, now);
    GoodAnswers(cal, w1, id, now);
    GoodAnswers(cal, w2, id, now);
    GoodAnswers(cal, w3, id, now);
    GoodAnswers(cal, w4, id, now);
    AtTwice(w, id, FirstCheck, Previewing);
    AtTwice(w, id, Previewing, SecondCheck);
    AtTwice(w, id, SecondCheck, Applying);
    AtTwice(w.(sends := w.sends + [Send(id.0, id.1)]), id, Applying, Awaiting);
    NoMoves(cal, u);
    moves := [];
    Before(cal, w4, Applies(id, false), moves);
    moves := [Applies(id, false)] + moves;
    Before(cal, w3, Checks(id, now), moves);
    moves := [Checks(id, now)] + moves;
    Before(cal, w2, Previews(id, true), moves);
    moves := [Previews(id, true)] + moves;
    Before(cal, w1, Checks(id, now), moves);
    moves := [Checks(id, now)] + moves;
    Before(cal, w, Decides(id), moves);
    moves := [Decides(id)] + moves;
  }

  /** The worker settles its row as sent. */
  lemma FinishesSent(cal: Calendar, w: World, id: Id, now: Time)
    requires Shaped(w.store) && InReach(w, id, now) && w.workers[id].pc == Finishing(true)
    ensures var u := Do(cal, w, Finishes(id, "ok", 60, now));
            Through(w, u, id) && u.store.outbox[id.0].status == Sent && u.sends == w.sends && u.delivered == w.delivered
  {
  }

  /** When the bridge delivers the send and its reply arrives in time, the row ends as sent. */
  lemma DeliveredEndsSent(cal: Calendar, w: World, id: Id, k: nat, now: Time) returns (moves: seq<Move>)
    requires WorldValid(w) && Shaped(w.store) && InReach(w, id, now) && w.workers[id].pc == Awaiting
    requires k < |w.sends| && w.sends[k] == Send(id.0, id.1)
    ensures var u := Story(cal, w, moves);
            Through(w, u, id) && u.store.outbox[id.0].status == Sent && u.sends == w.sends && u.delivered == w.delivered + {id.0}
  {
    hide Valid, WorkerSound, RowSound, Story, FinishDelivery, InHand;
    var m1, m2, m3 := Delivers(k), Replies(id, true), Finishes(id, "ok", 60, now);
    var w1 := w.(delivered := w.delivered + {id.0});
    var w2 := At(w1, id, Finishing(true));
    assert Do(cal, w, m1) == w1 && Do(cal, w1, m2) == w2;
    FinishesSent(cal, w2, id, now);
    var u := Do(cal, w2, m3);
    NoMoves(cal, u);
    Before(cal, w2, m3, []);
    Before(cal, w1, m2, [m3] + []);
    Before(cal, w, m1, [m2] + ([m3] + []));
    moves := [m1] + ([m2] + ([m3] + []));
  }

  /** So a good claim whose send is delivered and answered ends with its row sent, by exactly one send. */
  lemma GoodClaimDelivers(cal: Calendar, w: World, id: Id, now: Time) returns (moves: seq<Move>)
    requires WorldValid(w) && Shaped(w.store) && Undisturbed(w, id, now) && w.workers[id].pc == Deciding
    requires id.0 < |w.store.outbox| && Renderable(w.store, id.0) && !w.workers[id].claim.recovery
    ensures var u := Story(cal, w, moves);
            && Through(w, u, id) && u.store.outbox[id.0].status == Sent
            && u.sends == w.sends + [Send(id.0, id.1)] && u.delivered == w.delivered + {id.0}
  {
    hide WorldValid, DeliveryCurrent, Renderable, Story, InHand;
    CurrentInReach(w, id, now);
    var a := GoodClaimSends(cal, w, id, now);
    StoryValid(cal, w, a);
    var v := Story(cal, w, a);
    var b := DeliveredEndsSent(cal, v, id, |w.sends|, now);
    StorySplits(cal, w, a, b);
    moves := a + b;
  }

  // ----- A recovery asks, and never sends

  lemma BlocksRow(cal: Calendar, w: World, id: Id, now: Time)
    requires Shaped(w.store) && InReach(w, id, now) && w.workers[id].pc == Blocking
    ensures var u := Do(cal, w, Blocks(id, "automation_delivery_uncertain", now));
            Through(w, u, id) && OutboxSafety.Blocked(u.store, id.0) && u.sends == w.sends && u.delivered == w.delivered
  {
  }

  /** A recovery of a message that was delivered and is found has the row sent; any other answer blocks it.
      Neither sends. */
  lemma RecoverySettles(cal: Calendar, w: World, id: Id, found: bool, now: Time) returns (moves: seq<Move>)
    requires WorldValid(w) && Shaped(w.store) && InReach(w, id, now) && w.workers[id].pc == Deciding
    requires id.0 < |w.store.outbox| && Renderable(w.store, id.0) && w.workers[id].claim.recovery
    ensures var u := Story(cal, w, moves);
            && Through(w, u, id) && u.sends == w.sends && u.delivered == w.delivered
            && (found && id.0 in w.delivered ==> u.store.outbox[id.0].status == Sent)
            && (!(found && id.0 in w.delivered) ==> OutboxSafety.Blocked(u.store, id.0))
  {
    hide Valid, WorkerSound, RowSound, Story, FinishDelivery, BlockDelivery, InHand, Renderable, OutboxSafety.Blocked;
    var sent := found && id.0 in w.delivered;
    var m1, m2 := Decides(id), LooksUp(id, found);
    var m3 := if sent then Finishes(id, "ok", 60, now) else Blocks(id, "automation_delivery_uncertain", now);
    var w1, w2 := At(w, id, LookingUp), At(w, id, if sent then Finishing(true) else Blocking);
    assert Do(cal, w, m1) == w1 && Do(cal, w1, m2) == w2;
    if sent { FinishesSent(cal, w2, id, now); } else { BlocksRow(cal, w2, id, now); }
    var u := Do(cal, w2, m3);
    NoMoves(cal, u);
    Before(cal, w2, m3, []);
    Before(cal, w1, m2, [m3] + []);
    Before(cal, w, m1, [m2] + ([m3] + []));
    moves := [m1] + ([m2] + ([m3] + []));
  }

  // ----- Other answers

  /** There is a text for every test, and for the alerts of digest jobs alone. */
  lemma TextsExactly(s: State, o: nat)
    requires Shaped(s) && o < |s.outbox|
    ensures match s.outbox[o].notice
            case TestNotice(_) => Renderable(s, o)
            case _ => Renderable(s, o) <==> s.jobs[s.outbox[o].job].template.CrmDigest?
  {
  }

  /** What each other answer leads to: no text, no preview token and a refusal have the row reported unsent, a
      claim that is not current is given up, and a reply that is lost leaves the row in transit. */
  lemma OtherAnswers(cal: Calendar, w: World, id: Id, now: Time)
    requires Shaped(w.store) && id in w.workers
    ensures var me := w.workers[id];
            && (me.pc == Deciding && me.claim.row < |w.store.outbox| && !Renderable(w.store, me.claim.row) ==>
                  Do(cal, w, Decides(id)) == At(w, id, Finishing(false)))
            && (me.pc == FirstCheck && !DeliveryCurrent(w.store, me.claim, now) ==> Do(cal, w, Checks(id, now)) == At(w, id, Cancelling))
            && (me.pc == Previewing ==> Do(cal, w, Previews(id, false)) == At(w, id, Finishing(false)))
            && (me.pc == SecondCheck && !DeliveryCurrent(w.store, me.claim, now) ==> Do(cal, w, Checks(id, now)) == At(w, id, Cancelling))
            && (me.pc == Applying ==> Do(cal, w, Applies(id, true)) == At(w, id, Finishing(false)))
            && (me.pc == Awaiting ==> Do(cal, w, Replies(id, false)) == At(w, id, Stopped))
            && Do(cal, w, Crashes(id)) == At(w, id, Stopped)
  {
    hide DeliveryCurrent, Renderable;
  }

  /** A row reported unsent is due again after a pause, and one given up is dropped. */
  lemma UnsentIsDueAgain(cal: Calendar, w: World, id: Id, code: Code, pause: int, now: Time)
    requires Shaped(w.store) && InReach(w, id, now) && 10 <= pause <= 86400
    ensures w.workers[id].pc == Finishing(false) ==>
              var u := Do(cal, w, Finishes(id, code, pause, now));
              && Through(w, u, id) && u.sends == w.sends && u.delivered == w.delivered
              && u.store.outbox[id.0].status == Undelivered && u.store.outbox[id.0].nextAttempt == now + pause
    ensures w.workers[id].pc == Cancelling ==>
              var u := Do(cal, w, Cancels(id, code, now));
              Through(w, u, id) && u.sends == w.sends && u.delivered == w.delivered && u.store.outbox[id.0].status == Dropped
  {
  }

  /** A granted claim gets a worker of its own, at the start. */
  lemma ClaimsStart(cal: Calendar, w: World, owner: Owner, seconds: int, now: Time, pick: Option<nat>)
    requires Shaped(w.store)
    ensures var (s, claim) := ClaimOutbox(w.store, owner, seconds, now, pick);
            var u := Do(cal, w, Claims(owner, seconds, now, pick));
            && u.store == s && u.sends == w.sends && u.delivered == w.delivered
            && (claim.None? ==> u.workers == w.workers)
            && (claim.Some? ==> u.workers == w.workers[(claim.value.row, claim.value.token) := Worker(claim.value, Deciding)])
  {
    hide ClaimOutbox;
  }

  // ----- A send was previewed, and its claim was current after that

  predicate PastPreview(w: World, id: Id) {
    id in w.workers && w.workers[id].pc in {SecondCheck, Applying}
  }

  predicate PastChecks(w: World, id: Id) {
    id in w.workers && w.workers[id].pc == Applying
  }

  predicate SentBy(w: World, id: Id) {
    exists k :: 0 <= k < |w.sends| && w.sends[k] == Send(id.0, id.1)
  }

  /** The move in which the bridge gives this claim a token to send with. */
  predicate GetsToken(w: World, m: Move, id: Id) {
    m == Previews(id, true) && id in w.workers && w.workers[id].pc == Previewing
  }

  /** The move that finds this claim current once it has its token. */
  predicate FoundCurrent(w: World, m: Move, id: Id)
    requires Shaped(w.store)
  {
    m.Checks? && m.id == id && id in w.workers && w.workers[id].pc == SecondCheck && DeliveryCurrent(w.store, w.workers[id].claim, m.now)
  }

  lemma StepsPast(cal: Calendar, w: World, m: Move, id: Id)
    requires Shaped(w.store)
    ensures var u := Do(cal, w, m);
            && (PastPreview(u, id) ==> PastPreview(w, id) || GetsToken(w, m, id))
            && (PastChecks(u, id) ==> PastChecks(w, id) || FoundCurrent(w, m, id))
            && (SentBy(u, id) ==> SentBy(w, id) || PastChecks(w, id))
  {
    hide DeliveryCurrent, Step, ClaimOutbox, FinishDelivery, CancelDelivery, BlockDelivery, Renderable;
    var u := Do(cal, w, m);
    if SentBy(u, id) {
      var k :| 0 <= k < |u.sends| && u.sends[k] == Send(id.0, id.1);
      if k < |w.sends| { assert w.sends[k] == Send(id.0, id.1); }
    }
  }

  ghost predicate TokenAt(cal: Calendar, w: World, moves: seq<Move>, id: Id, i: nat)
    requires i < |moves|
  {
    GetsToken(Story(cal, w, moves[..i]), moves[i], id)
  }

  ghost predicate CurrentAt(cal: Calendar, w: World, moves: seq<Move>, id: Id, i: nat)
    requires i < |moves|
  {
    var v := Story(cal, w, moves[..i]); Shaped(v.store) && FoundCurrent(v, moves[i], id)
  }

  lemma ShiftAt(cal: Calendar, w: World, moves: seq<Move>, id: Id, i: nat)
    requires Shaped(w.store) && 1 <= i < |moves|
    ensures TokenAt(cal, w, moves, id, i) == TokenAt(cal, Do(cal, w, moves[0]), moves[1..], id, i - 1)
    ensures CurrentAt(cal, w, moves, id, i) == CurrentAt(cal, Do(cal, w, moves[0]), moves[1..], id, i - 1)
  {
    hide Do, GetsToken, FoundCurrent;
    assert moves[..i][0] == moves[0] && moves[..i][1..] == moves[1..][..i - 1];
    assert Story(cal, w, moves[..i]) == Story(cal, Do(cal, w, moves[0]), moves[1..][..i - 1]);
  }

  lemma FirstAt(cal: Calendar, w: World, moves: seq<Move>, id: Id)
    requires Shaped(w.store) && moves != []
    ensures TokenAt(cal, w, moves, id, 0) == GetsToken(w, moves[0], id)
    ensures CurrentAt(cal, w, moves, id, 0) == FoundCurrent(w, moves[0], id)
  {
    hide GetsToken, FoundCurrent;
    assert moves[..0] == [];
    NoMoves(cal, w);
  }

  lemma {:induction false} PreviewBeforeSend(cal: Calendar, w: World, moves: seq<Move>, id: Id)
    requires WorldValid(w) && !PastPreview(w, id) && !SentBy(w, id)
    requires SentBy(Story(cal, w, moves), id) || PastPreview(Story(cal, w, moves), id)
    ensures exists i :: 0 <= i < |moves| && TokenAt(cal, w, moves, id, i)
    decreases |moves|
  {
    hide WorldValid, Do, PastPreview, SentBy, GetsToken, FoundCurrent, TokenAt;
    if moves == [] {
      NoMoves(cal, w);
    } else {
      DoKeeps(cal, w, moves[0]);
      StepsPast(cal, w, moves[0], id);
      ChecksArePast(w, id);
      if GetsToken(w, moves[0], id) {
        FirstAt(cal, w, moves, id);
      } else {
        var u := Do(cal, w, moves[0]);
        PreviewBeforeSend(cal, u, moves[1..], id);
        var i :| 0 <= i < |moves[1..]| && TokenAt(cal, u, moves[1..], id, i);
        ShiftAt(cal, w, moves, id, i + 1);
      }
    }
  }

  lemma ChecksArePast(w: World, id: Id)
    ensures PastChecks(w, id) ==> PastPreview(w, id)
  {
  }

  lemma {:induction false} CheckBeforeSend(cal: Calendar, w: World, moves: seq<Move>, id: Id)
    requires WorldValid(w) && !PastChecks(w, id) && !SentBy(w, id) && SentBy(Story(cal, w, moves), id)
    ensures exists i :: 0 <= i < |moves| && CurrentAt(cal, w, moves, id, i)
    decreases |moves|
  {
    hide WorldValid, Do, PastChecks, SentBy, GetsToken, FoundCurrent, CurrentAt;
    if moves == [] {
      NoMoves(cal, w);
    } else {
      DoKeeps(cal, w, moves[0]);
      StepsPast(cal, w, moves[0], id);
      if FoundCurrent(w, moves[0], id) {
        FirstAt(cal, w, moves, id);
      } else {
        var u := Do(cal, w, moves[0]);
        CheckBeforeSend(cal, u, moves[1..], id);
        var i :| 0 <= i < |moves[1..]| && CurrentAt(cal, u, moves[1..], id, i);
        ShiftAt(cal, w, moves, id, i + 1);
      }
    }
  }

  /** In every history a claim that sends got a preview token before, and was found current after that. */
  lemma SendsArePreviewed(cal: Calendar, moves: seq<Move>, k: nat)
    requires k < |Told(cal, moves).sends|
    ensures var send := Told(cal, moves).sends[k];
            && (exists i :: 0 <= i < |moves| && TokenAt(cal, GENESIS, moves, (send.row, send.token), i))
            && (exists i :: 0 <= i < |moves| && CurrentAt(cal, GENESIS, moves, (send.row, send.token), i))
  {
    hide WorldValid, TokenAt, CurrentAt, Story;
    GenesisValid();
    var id := (Told(cal, moves).sends[k].row, Told(cal, moves).sends[k].token);
    assert SentBy(Told(cal, moves), id);
    PreviewBeforeSend(cal, GENESIS, moves, id);
    CheckBeforeSend(cal, GENESIS, moves, id);
  }
}

/** What a run does with the delivery an earlier run left behind: undisturbed, it has the delivery
acknowledged and the record cleared without sending anything, and then sends the next events. */
module CrmRecovery {
  import opened Options
  import opened Tables
  import opened Steps
  import opened Invariants
  import opened CrmDigest
  import opened CrmInvariant
  import opened CrmSafety
  import opened CrmPromises
  import opened CrmProgress

  /** A record that a run can resolve: what it says may have been sent is acknowledged, or did arrive. */
  predicate Recoverable(w: World, j: nat) {
    && Value(w.store, j, DeliveryState).Some?
    && (InFlight(w.store, j) && Pending(w, j) > w.acked ==> Recorded(w.store, j).value in w.messages)
  }

  /** The event up to which the recorded delivery reaches. */
  function Pending(w: World, j: nat): nat {
    match Recorded(w.store, j)
    case Some(d) => if d < |w.issued| then w.issued[d].through else 0
    case None => 0
  }

  /** The first `k` cursors of the record are cleared. */
  predicate ClearedTo(w: World, j: nat, k: nat) {
    forall i | 0 <= i < k && i < |CURSOR_NAMES| :: Value(w.store, j, CURSOR_NAMES[i]).None?
  }

  predicate Notes(mark: Mark) {
    mark.NoteMessage? || mark.NoteSent? || mark.NoteDelivered?
  }

  /** On the way from a record to its acknowledgement: of a delivery the worker has found, or of its own. */
  predicate OnRecovery(w: World, id: Id, pc: Pc, own: bool) {
    match pc
    case Beating(next) =>
      || (next == Registering && !own && Recoverable(w, id.0))
      || (next.Marking? && own && next.w.own && Notes(next.mark) && next.w.through > w.acked && Fresh(w, id, next))
    case Registering => !own && Recoverable(w, id.0)
    case Resuming(seen) => !own && seen == w.acked && Recoverable(w, id.0)
    case LookingUp(work) => !own && work.digest in w.messages && work.through > w.acked
    case Marking(work, mark, _) => work.own == own && Notes(mark) && work.through > w.acked && Fresh(w, id, pc)
    case ReadingBack(work, _) => work.own == own && work.through > w.acked
    case Acking(work) => work.own == own && work.through > w.acked
    case AwaitingAck(work) => work.own == own && (work.through > w.acked ==> work.digest in w.ackRequests)
    case Clearing(k, finish, _) => k < 7 && finish == own && Fresh(w, id, pc) && ClearedTo(w, id.0, k)
    case _ => false
  }

  /** A run that resolved a record goes on; one that delivered its own digest is through. */
  function Last(own: bool): Pc {
    if own then Stopped else Beating(Reading)
  }

  /** How far the acknowledgement will reach when the record is cleared. */
  function Reach(w: World, id: Id, pc: Pc): int {
    match pc
    case Beating(next) =>
      if next == Registering then Resolved(w, id.0)
      else if next.Marking? && next.w.through > w.acked then next.w.through
      else w.acked
    case Registering => Resolved(w, id.0)
    case Resuming(_) => Resolved(w, id.0)
    case Clearing(_, _, _) => w.acked
    case _ => if HasWork(pc) && pc.w.through > w.acked then pc.w.through else w.acked
  }

  function Resolved(w: World, j: nat): nat {
    if InFlight(w.store, j) && Pending(w, j) > w.acked then Pending(w, j) else w.acked
  }

  predicate HasWork(pc: Pc) {
    pc.LookingUp? || pc.Marking? || pc.ReadingBack? || pc.Acking? || pc.AwaitingAck?
  }

  function Left(w: World, pc: Pc): nat {
    match pc
    case Beating(next) => if next == Registering then 50 else if next.Marking? then 1 + MarkLeft(next) else 0
    case Registering => 49
    case Resuming(_) => 48
    case LookingUp(_) => 47
    case Marking(_, _, _) => MarkLeft(pc)
    case ReadingBack(_, _) => 33
    case Acking(_) => 28
    case AwaitingAck(work) => if work.through > w.acked then 27 else 26
    case Clearing(k, _, revision) => if k < 7 then 2 * (7 - k) + (if revision.None? then 1 else 0) else 0
    case _ => 0
  }

  function MarkLeft(pc: Pc): nat
    requires pc.Marking?
  {
    (if pc.mark.NoteMessage? then 36 else if pc.mark.NoteSent? then 34 else 29) + if pc.revision.None? then 1 else 0
  }

  ghost function MessageOf(w: World, d: nat): (m: nat)
    requires d in w.messages
    ensures Carries(w, m, d)
  {
    var i :| 0 <= i < |w.messages| && w.messages[i] == d;
    i + 1
  }

  /** The bridge finds the message, the readback verifies it and the feed answers. */
  ghost function NextCall(w: World, id: Id, now: Time): Move
    requires id in w.workers
  {
    match w.workers[id].pc
    case LookingUp(work) => LooksUp(id, if work.digest in w.messages then MessageOf(w, work.digest) else 0)
    case ReadingBack(_, _) => ReadsBack(id, true)
    case Acking(_) => RequestsAck(id)
    case AwaitingAck(work) => if work.through > w.acked then Acknowledges(work.digest) else HearsAck(id)
    case _ => NextMove(w, id, now)
  }

  /** Only the worker's own lease and cursors have changed, and what the feed and the bridge answer:
      nothing was sent. */
  ghost predicate Kept(w: World, u: World, id: Id) {
    && u.store == w.store.(runtimes := u.store.runtimes, cursors := u.store.cursors)
    && |u.store.runtimes| == |w.store.runtimes|
    && (forall j | 0 <= j < |w.store.runtimes| && j != id.0 :: u.store.runtimes[j] == w.store.runtimes[j])
    && u.issued == w.issued && u.commits == w.commits && u.messages == w.messages && u.start == w.start
  }

  ghost predicate Nearer(w: World, u: World, id: Id, now: Time, own: bool)
    requires id in w.workers && Shaped(u.store)
  {
    && Undisturbed(u, id, now)
    && (OnRecovery(u, id, u.workers[id].pc, own) || (u.workers[id].pc == Last(own) && ClearedTo(u, id.0, 7)))
    && Left(u, u.workers[id].pc) < Left(w, w.workers[id].pc)
    && Reach(u, id, u.workers[id].pc) == Reach(w, id, w.workers[id].pc)
    && Kept(w, u, id)
  }

  lemma GoesTo(w: World, v: World, id: Id, now: Time, pc: Pc, own: bool)
    requires Shaped(w.store) && Shaped(v.store) && Undisturbed(w, id, now) && v.workers == w.workers && Kept(w, v, id)
    requires RunClaimCurrent(v.store, ClaimOf(w, id), now) && v.store.runtimes[id.0].lease.value.until <= now + BEAT
    requires OnRecovery(v, id, pc, own) || (pc == Last(own) && ClearedTo(v, id.0, 7))
    requires Left(v, pc) < Left(w, w.workers[id].pc) && Reach(v, id, pc) == Reach(w, id, w.workers[id].pc)
    ensures Nearer(w, At(v, id, pc), id, now, own)
  {
    hide RunClaimCurrent;
  }

  lemma CallsTo(w: World, v: World, id: Id, now: Time, pc: Pc, own: bool)
    requires Shaped(w.store) && Undisturbed(w, id, now)
    requires v == w.(acked := v.acked, ackRequests := v.ackRequests, verified := v.verified)
    requires OnRecovery(v, id, pc, own) || (pc == Last(own) && ClearedTo(v, id.0, 7))
    requires Left(v, pc) < Left(w, w.workers[id].pc) && Reach(v, id, pc) == Reach(w, id, w.workers[id].pc)
    ensures Nearer(w, At(v, id, pc), id, now, own)
  {
    hide RunClaimCurrent, OnRecovery, Left, Reach, Nearer, ClearedTo;
    assert w.store == w.store.(runtimes := w.store.runtimes, cursors := w.store.cursors);
    GoesTo(w, v, id, now, pc, own);
  }

  // ----- The moves on the way

  lemma BeatNears(w: World, id: Id, now: Time, own: bool)
    requires Shaped(w.store) && Undisturbed(w, id, now) && OnRecovery(w, id, w.workers[id].pc, own) && w.workers[id].pc.Beating?
    ensures var u := Acts(w, NextCall(w, id, now), id); Shaped(u.store) && Nearer(w, u, id, now, own)
  {
    hide RunClaimCurrent, Heartbeat, Nearer;
    BeatKeepsClaim(w, id, now);
    var me := w.workers[id];
    var s := Heartbeat(w.store, id.0, me.run, me.owner, id.1, BEAT, now).0;
    GoesTo(w, w.(store := s), id, now, me.pc.next, own);
  }

  lemma ResumeNears(w: World, id: Id, now: Time, own: bool)
    requires WorldValid(w) && Shaped(w.store) && Undisturbed(w, id, now) && OnRecovery(w, id, w.workers[id].pc, own)
    requires w.workers[id].pc.Resuming?
    ensures var u := Acts(w, NextCall(w, id, now), id); Shaped(u.store) && Nearer(w, u, id, now, own)
  {
    hide WorldValid, RunClaimCurrent, Nearer, Resume, OnRecovery, Left, Reach;
    ClaimListed(w, id, now);
    ResumesOn(w, id, own);
    SeenIsAcked(w, id, w.workers[id].pc, own);
    CallsTo(w, w, id, now, Resume(w.store, id.0, w.acked), own);
  }

  lemma SeenIsAcked(w: World, id: Id, pc: Pc, own: bool)
    requires OnRecovery(w, id, pc, own) && pc.Resuming?
    ensures pc.seen == w.acked
  {
  }

  /** What the record tells the run to do resolves it. */
  lemma ResumesOn(w: World, id: Id, own: bool)
    requires WorldValid(w) && Shaped(w.store) && id.0 < |w.store.jobs| && id in w.workers
    requires w.workers[id].pc.Resuming? && OnRecovery(w, id, w.workers[id].pc, own)
    ensures var pc := Resume(w.store, id.0, w.acked);
            OnRecovery(w, id, pc, own) && Left(w, pc) < 48 && Left(w, w.workers[id].pc) == 48 && Reach(w, id, pc) == Reach(w, id, w.workers[id].pc)
  {
    hide Valid, FeedSound, CommitsSound, WorkersSound;
    assert RecordSound(w, id.0);
  }

  lemma CallSound(w: World, id: Id)
    requires WorldValid(w) && id in w.workers
    ensures w.workers[id].pc.LookingUp? ==> !w.workers[id].pc.w.own
    ensures w.workers[id].pc.ReadingBack? ==> 1 <= w.workers[id].pc.message <= |w.messages|
  {
    hide Valid, FeedSound, CommitsSound, RecordsSound;
    assert WorkerSound(w, id);
  }

  lemma CallNears(w: World, id: Id, now: Time, own: bool)
    requires WorldValid(w) && Shaped(w.store) && Undisturbed(w, id, now) && OnRecovery(w, id, w.workers[id].pc, own)
    requires var pc := w.workers[id].pc; pc.Registering? || pc.LookingUp? || pc.ReadingBack?
    ensures var u := Acts(w, NextCall(w, id, now), id); Shaped(u.store) && Nearer(w, u, id, now, own)
  {
    hide WorldValid, RunClaimCurrent, Nearer;
    CallSound(w, id);
    var pc := w.workers[id].pc;
    match pc {
      case Registering => CallsTo(w, w, id, now, Resuming(w.acked), own);
      case LookingUp(work) => CallsTo(w, w, id, now, Marking(work, NoteMessage(MessageOf(w, work.digest)), None), own);
      case ReadingBack(work, m) =>
        var mark := Marking(work, NoteDelivered, None);
        CallsTo(w, w.(verified := w.verified + {w.messages[m - 1]}), id, now, if own then Beating(mark) else mark, own);
    }
  }

  lemma AckNamesDigest(w: World, id: Id)
    requires WorldValid(w) && id in w.workers && (w.workers[id].pc.Acking? || w.workers[id].pc.AwaitingAck?)
    ensures WorkSound(w, w.workers[id].pc.w)
  {
    hide Valid, FeedSound, CommitsSound, RecordsSound;
    assert WorkerSound(w, id);
  }

  lemma RequestNears(cal: Calendar, w: World, id: Id, now: Time, own: bool)
    requires WorldValid(w) && Shaped(w.store) && Undisturbed(w, id, now) && OnRecovery(w, id, w.workers[id].pc, own)
    requires w.workers[id].pc.Acking?
    ensures var u := Do(cal, w, NextCall(w, id, now)); Shaped(u.store) && Nearer(w, u, id, now, own)
  {
    hide WorldValid, RunClaimCurrent, Nearer;
    AckNamesDigest(w, id);
    var work := w.workers[id].pc.w;
    CallsTo(w, w.(ackRequests := w.ackRequests + {work.ack}), id, now, AwaitingAck(work), own);
  }

  lemma AckNears(cal: Calendar, w: World, id: Id, now: Time, own: bool)
    requires WorldValid(w) && Shaped(w.store) && Undisturbed(w, id, now) && OnRecovery(w, id, w.workers[id].pc, own)
    requires w.workers[id].pc.AwaitingAck?
    ensures var u := Do(cal, w, NextCall(w, id, now)); Shaped(u.store) && Nearer(w, u, id, now, own)
  {
    hide WorldValid, RunClaimCurrent, Nearer;
    AckNamesDigest(w, id);
    var pc := w.workers[id].pc;
    var work := pc.w;
    if work.through > w.acked {
      var v := w.(acked := w.issued[work.digest].through);
      CallsTo(w, v, id, now, pc, own);
      assert At(v, id, pc) == v;
    } else {
      CallsTo(w, w, id, now, Clearing(0, own, None), own);
    }
  }

  lemma RevisionNears(w: World, id: Id, now: Time, own: bool)
    requires Shaped(w.store) && Undisturbed(w, id, now) && OnRecovery(w, id, w.workers[id].pc, own)
    requires Writes(w.workers[id].pc) && w.workers[id].pc.revision.None?
    ensures var u := Acts(w, NextCall(w, id, now), id); Shaped(u.store) && Nearer(w, u, id, now, own)
  {
    hide RunClaimCurrent, Nearer, CursorOf, Shaped;
    ClaimListed(w, id, now);
    var pc := w.workers[id].pc;
    ReadActs(w, id, now);
    CallsTo(w, w, id, now, WithRevision(pc, Some(CursorOf(w.store, id.0, WriteOf(w.issued, pc).0).revision)), own);
  }

  /** A write sets its own cursor and no other of the job. */
  lemma WriteSets(w: World, id: Id, now: Time, name: CursorName, value: Option<CursorValue>)
    requires Shaped(w.store) && Undisturbed(w, id, now)
    ensures var r := UpdateCursor(w.store, id.0, name, value, CursorOf(w.store, id.0, name).revision, w.workers[id].owner, id.1, now);
            r.Ok? && forall n :: Value(r.state, id.0, n) == if n == name then value else Value(w.store, id.0, n)
  {
  }

  lemma WriteNears(w: World, id: Id, now: Time, own: bool)
    requires Shaped(w.store) && Undisturbed(w, id, now) && OnRecovery(w, id, w.workers[id].pc, own)
    requires Writes(w.workers[id].pc) && w.workers[id].pc.revision.Some?
    ensures var u := Acts(w, NextCall(w, id, now), id); Shaped(u.store) && Nearer(w, u, id, now, own)
  {
    hide RunClaimCurrent, UpdateCursor, CursorOf, Nearer, Resolved, OnRecovery, Left, Reach, WriteOf, AfterWrite, Kept;
    var pc := w.workers[id].pc;
    var (name, value) := WriteOf(w.issued, pc);
    WriteKeepsClaim(w, id, now, name, value);
    WriteSets(w, id, now, name, value);
    PathIsFresh(w, id, pc, own);
    var s := UpdateCursor(w.store, id.0, name, value, pc.revision.value, w.workers[id].owner, id.1, now).state;
    WriteGoesOn(w, s, id, pc, own);
    OnlyCursors(w, s, id);
    GoesTo(w, w.(store := s), id, now, AfterWrite(pc), own);
    RecoveryWrites(w, id, pc, own);
  }

  lemma OnlyCursors(w: World, s: State, id: Id)
    requires s == w.store.(cursors := s.cursors)
    ensures Kept(w, w.(store := s), id)
  {
  }

  lemma PathIsFresh(w: World, id: Id, pc: Pc, own: bool)
    requires OnRecovery(w, id, pc, own) && Writes(pc) && pc.revision.Some?
    ensures pc.revision.value == CursorOf(w.store, id.0, WriteOf(w.issued, pc).0).revision
  {
    hide CursorOf, WriteOf;
  }

  /** No send is armed on the way. */
  lemma RecoveryWrites(w: World, id: Id, pc: Pc, own: bool)
    requires OnRecovery(w, id, pc, own) && Writes(pc)
    ensures !(pc.Marking? && pc.mark == Arm)
  {
  }

  /** Where a write leads on the way; the last one leaves the record empty. */
  lemma WriteGoesOn(w: World, s: State, id: Id, pc: Pc, own: bool)
    requires OnRecovery(w, id, pc, own) && Writes(pc) && pc.revision.Some?
    requires var (name, value) := WriteOf(w.issued, pc);
             forall n :: Value(s, id.0, n) == if n == name then value else Value(w.store, id.0, n)
    ensures var v, next := w.(store := s), AfterWrite(pc);
            && (OnRecovery(v, id, next, own) || (next == Last(own) && ClearedTo(v, id.0, 7)))
            && Left(v, next) < Left(w, pc) && Reach(v, id, next) == Reach(w, id, pc)
  {
    hide CursorOf, Value, Resolved;
  }

  lemma NextNears(cal: Calendar, w: World, id: Id, now: Time, own: bool)
    requires WorldValid(w) && Shaped(w.store) && Undisturbed(w, id, now) && OnRecovery(w, id, w.workers[id].pc, own)
    ensures var u := Do(cal, w, NextCall(w, id, now)); Shaped(u.store) && Nearer(w, u, id, now, own)
  {
    hide WorldValid, RunClaimCurrent, Nearer, Acts, Shaped, Fresh;
    var pc := w.workers[id].pc;
    if pc.Beating? { BeatNears(w, id, now, own); }
    else if pc.Resuming? { ResumeNears(w, id, now, own); }
    else if pc.Acking? { RequestNears(cal, w, id, now, own); }
    else if pc.AwaitingAck? { AckNears(cal, w, id, now, own); }
    else if Writes(pc) { if pc.revision.None? { RevisionNears(w, id, now, own); } else { WriteNears(w, id, now, own); } }
    else { CallNears(w, id, now, own); }
  }

  // ----- The whole run

  /** Every cursor of the job is empty. */
  ghost predicate RecordEmpty(w: World, j: nat) {
    forall name :: Value(w.store, j, name).None?
  }

  lemma AllCleared(w: World, j: nat)
    requires ClearedTo(w, j, 7)
    ensures RecordEmpty(w, j)
  {
    hide Value;
    forall name ensures Value(w.store, j, name).None? {
      var i := match name
               case DeliveryState => 0
               case PendingAck => 1
               case PendingDigestId => 2
               case PendingContentHash => 3
               case PendingThrough => 4
               case MessageId => 5
               case TextHash => 6;
      assert CURSOR_NAMES[i] == name;
    }
  }

  /** The record is resolved and empty, the acknowledgement has reached `reach`, and nothing was sent
      meanwhile. */
  ghost predicate Cleared(w: World, u: World, id: Id, now: Time, own: bool, reach: int)
    requires Shaped(u.store)
  {
    && Undisturbed(u, id, now) && u.workers[id].pc == Last(own) && RecordEmpty(u, id.0) && u.acked == reach && Kept(w, u, id)
  }

  lemma KeptOn(w: World, u: World, v: World, id: Id, now: Time, own: bool, reach: int)
    requires id in w.workers && Shaped(u.store) && Shaped(v.store) && Nearer(w, u, id, now, own) && Cleared(u, v, id, now, own, reach)
    ensures Cleared(w, v, id, now, own, reach)
  {
    hide Undisturbed, OnRecovery, Left, Reach, RecordEmpty, ClearedTo;
  }

  lemma {:induction false} RunRecovers(cal: Calendar, w: World, id: Id, now: Time, own: bool) returns (moves: seq<Move>)
    requires WorldValid(w) && Shaped(w.store) && Undisturbed(w, id, now) && OnRecovery(w, id, w.workers[id].pc, own)
    ensures var u := Story(cal, w, moves); Shaped(u.store) && Cleared(w, u, id, now, own, Reach(w, id, w.workers[id].pc))
    decreases Left(w, w.workers[id].pc)
  {
    hide WorldValid, OnRecovery, RunClaimCurrent, Kept, Do, Left, Reach, Shaped, NextCall, ClearedTo, RecordEmpty;
    var m := NextCall(w, id, now);
    NextNears(cal, w, id, now, own);
    DoKeeps(cal, w, m);
    var u := Do(cal, w, m);
    var rest: seq<Move> := [];
    if OnRecovery(u, id, u.workers[id].pc, own) {
      rest := RunRecovers(cal, u, id, now, own);
    } else {
      ReachedLast(w, u, id, now, own);
    }
    moves := [m] + rest;
    assert moves[0] == m && moves[1..] == rest;
    KeptOn(w, u, Story(cal, u, rest), id, now, own, Reach(w, id, w.workers[id].pc));
  }

  lemma ReachedLast(w: World, u: World, id: Id, now: Time, own: bool)
    requires id in w.workers && Shaped(u.store) && Nearer(w, u, id, now, own) && !OnRecovery(u, id, u.workers[id].pc, own)
    ensures Cleared(u, u, id, now, own, Reach(w, id, w.workers[id].pc))
  {
    hide RecordEmpty, ClearedTo;
    AllCleared(u, id.0);
    assert u.store == u.store.(runtimes := u.store.runtimes, cursors := u.store.cursors);
  }

  /** A run that finds a delivery on record and can resolve it has it acknowledged, and sends the next
      events after it; it makes no other send. */
  lemma RunResumes(cal: Calendar, w: World, id: Id, now: Time) returns (moves: seq<Move>)
    requires WorldValid(w) && Shaped(w.store) && Undisturbed(w, id, now)
    requires w.workers[id].pc == Beating(Registering) && Recoverable(w, id.0)
    ensures var u := Story(cal, w, moves);
            Shaped(u.store) && SentNext(w.(acked := Resolved(w, id.0)), u, id, now)
  {
    hide WorldValid, RunClaimCurrent, SentNext, RecordEmpty;
    var a := RunRecovers(cal, w, id, now, false);
    var v := Story(cal, w, a);
    StoryValid(cal, w, a);
    var b := WorkerSends(cal, v, id, now);
    StorySplits(cal, w, a, b);
    moves := a + b;
    SentFrom(w, v, Story(cal, v, b), id, now);
  }

  lemma SentFrom(w: World, v: World, u: World, id: Id, now: Time)
    requires Shaped(v.store) && Shaped(u.store) && Cleared(w, v, id, now, false, Resolved(w, id.0)) && SentNext(v, u, id, now)
    ensures SentNext(w.(acked := Resolved(w, id.0)), u, id, now)
  {
    hide Undisturbed, Resolved, RecordEmpty;
  }

  // ----- A delivery of the run's own

  /** A run whose send is delivered and answered has it acknowledged and its record cleared, and is through. */
  lemma RunCompletes(cal: Calendar, w: World, id: Id, c: nat, now: Time) returns (moves: seq<Move>)
    requires WorldValid(w) && Shaped(w.store) && Undisturbed(w, id, now)
    requires w.workers[id].pc.Awaiting? && w.workers[id].pc.w.own && w.workers[id].pc.w.through > w.acked
    requires CommitOf(w, id, c) && w.commits[c].fate == Launched && w.commits[c].digest == w.workers[id].pc.w.digest
    ensures var u := Story(cal, w, moves);
            && Shaped(u.store) && Undisturbed(u, id, now) && u.workers[id].pc == Stopped && RecordEmpty(u, id.0)
            && u.acked == w.workers[id].pc.w.through && u.commits == w.commits && u.messages == w.messages + [w.commits[c].digest]
  {
    hide WorldValid, RunClaimCurrent, Do, Shaped, OnRecovery, Reach, RecordEmpty;
    var m1, m2 := Delivers(c), Replies(id, |w.messages| + 1);
    DeliveredAndAnswered(cal, w, id, c, now);
    DoKeeps(cal, w, m1);
    var w1 := Do(cal, w, m1);
    DoKeeps(cal, w1, m2);
    var w2 := Do(cal, w1, m2);
    var rest := RunRecovers(cal, w2, id, now, true);
    moves := [m1] + ([m2] + rest);
    assert moves[0] == m1 && moves[1..] == [m2] + rest;
    assert ([m2] + rest)[0] == m2 && ([m2] + rest)[1..] == rest;
  }

  lemma DeliveredAndAnswered(cal: Calendar, w: World, id: Id, c: nat, now: Time)
    requires Shaped(w.store) && Undisturbed(w, id, now)
    requires w.workers[id].pc.Awaiting? && w.workers[id].pc.w.own && w.workers[id].pc.w.through > w.acked
    requires CommitOf(w, id, c) && w.commits[c].fate == Launched && w.commits[c].digest == w.workers[id].pc.w.digest
    ensures var w1 := Do(cal, w, Delivers(c));
            && w1 == w.(messages := w.messages + [w.commits[c].digest])
            && var w2 := Do(cal, w1, Replies(id, |w.messages| + 1));
               && w2 == At(w1, id, Beating(Marking(w.workers[id].pc.w, NoteMessage(|w.messages| + 1), None)))
               && Undisturbed(w2, id, now) && OnRecovery(w2, id, w2.workers[id].pc, true)
               && Reach(w2, id, w2.workers[id].pc) == w.workers[id].pc.w.through
  {
    hide RunClaimCurrent;
  }

  // ----- A send that was refused

  /** A send that is refused, as one with a stale preview, leaves the record prepared: the worker writes that
      and stops.  Nothing was or will be delivered. */
  lemma RefusalPrepares(cal: Calendar, w: World, id: Id, now: Time) returns (moves: seq<Move>, c: nat)
    requires WorldValid(w) && Shaped(w.store) && Undisturbed(w, id, now) && w.workers[id].pc.Applying?
    ensures var u := Story(cal, w, moves);
            && WorldValid(u) && Shaped(u.store) && Undisturbed(u, id, now) && u.workers[id].pc == Stopped
            && Value(u.store, id.0, DeliveryState) == Some(PhaseText(Prepared)) && Recoverable(u, id.0) && Resolved(u, id.0) == w.acked
            && u.acked == w.acked && u.messages == w.messages && |u.commits| == |w.commits|
            && CommitOf(u, id, c) && u.commits[c].fate == Retracted
  {
    hide WorldValid, RunClaimCurrent, Do, Shaped, CursorOf, UpdateCursor;
    var work := w.workers[id].pc.w;
    var m1, m2, m3 := Applies(id, true), ReadsRevision(id), WritesCursor(id, now);
    c := RefusalRetracts(cal, w, id, now);
    DoKeeps(cal, w, m1);
    var w1 := Do(cal, w, m1);
    DisarmReads(cal, w1, id, now, work);
    DoKeeps(cal, w1, m2);
    var w2 := Do(cal, w1, m2);
    DisarmWrites(cal, w2, id, now, work);
    DoKeeps(cal, w2, m3);
    var u := Do(cal, w2, m3);
    moves := [m1, m2, m3];
    assert moves[1..] == [m2, m3] && [m2, m3][1..] == [m3] && [m3][1..] == [];
    assert Story(cal, u, []) == u;
    assert Story(cal, w2, [m3]) == u;
    assert Story(cal, w1, [m2, m3]) == u;
  }

  lemma RefusalRetracts(cal: Calendar, w: World, id: Id, now: Time) returns (c: nat)
    requires WorldValid(w) && Shaped(w.store) && Undisturbed(w, id, now) && w.workers[id].pc.Applying?
    ensures var w1 := Do(cal, w, Applies(id, true));
            && w1 == At(w.(commits := w1.commits), id, Marking(w.workers[id].pc.w, Disarm, None)) && |w1.commits| == |w.commits|
            && Undisturbed(w1, id, now) && CommitOf(w1, id, c) && w1.commits[c].fate == Retracted
  {
    hide Valid, FeedSound, RecordsSound, WorkersSound, RunClaimCurrent, CommitSound, Known, Chained;
    ArmedCommit(w, id);
    c := TheCommit(w, id);
  }

  lemma DisarmReads(cal: Calendar, w: World, id: Id, now: Time, work: Work)
    requires Shaped(w.store) && Undisturbed(w, id, now) && w.workers[id].pc == Marking(work, Disarm, None)
    ensures var u := Do(cal, w, ReadsRevision(id));
            && u == At(w, id, Marking(work, Disarm, Some(CursorOf(w.store, id.0, DeliveryState).revision)))
            && Undisturbed(u, id, now)
  {
    hide RunClaimCurrent, CursorOf;
    ClaimListed(w, id, now);
  }

  lemma DisarmWrites(cal: Calendar, w: World, id: Id, now: Time, work: Work)
    requires Shaped(w.store) && Undisturbed(w, id, now)
    requires w.workers[id].pc == Marking(work, Disarm, Some(CursorOf(w.store, id.0, DeliveryState).revision))
    ensures var u := Do(cal, w, WritesCursor(id, now));
            && u == At(w.(store := u.store), id, Stopped) && Shaped(u.store) && Undisturbed(u, id, now)
            && Value(u.store, id.0, DeliveryState) == Some(PhaseText(Prepared)) && Recoverable(u, id.0) && Resolved(u, id.0) == w.acked
  {
    hide RunClaimCurrent, CursorOf, UpdateCursor;
    var prepared := Some(PhaseText(Prepared));
    WriteKeepsClaim(w, id, now, DeliveryState, prepared);
    WriteSets(w, id, now, DeliveryState, prepared);
  }

  /** So the next run of the job, while nobody disturbs it, sends the events that were refused. */
  lemma RefusedIsSentNext(cal: Calendar, w: World, id: Id, now: Time) returns (moves: seq<Move>)
    requires WorldValid(w) && Shaped(w.store) && Undisturbed(w, id, now) && w.workers[id].pc == Beating(Registering)
    requires Value(w.store, id.0, DeliveryState) == Some(PhaseText(Prepared))
    ensures var u := Story(cal, w, moves); Shaped(u.store) && SentNext(w, u, id, now)
  {
    hide WorldValid, RunClaimCurrent, SentNext;
    assert w.(acked := w.acked) == w;
    moves := RunResumes(cal, w, id, now);
  }
}

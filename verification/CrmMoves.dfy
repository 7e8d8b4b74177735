/** What one move of the digest delivery does to the sends, the workers and the tables. */
module CrmMoves {
  import opened Options
  import opened Tables
  import opened Steps
  import opened Invariants
  import opened CrmDigest
  import opened CrmInvariant
  import opened CrmSafety

  /** The digest a worker is about to send. */
  function Unsent(pc: Pc): Option<nat> {
    match pc
    case Beating(next) => Unsent(next)
    case Checking(next) => Unsent(next)
    case Preparing(work, _, _) => Some(work.digest)
    case Previewing(work) => Some(work.digest)
    case Marking(work, mark, _) => if mark == Arm then Some(work.digest) else None
    case _ => None
  }

  /** The worker has read the revision and is about to arm its send. */
  predicate AboutToArm(pc: Pc) {
    pc.Marking? && pc.mark == Arm && pc.revision.Some?
  }

  /** What a worker does after a heartbeat or a check starts with nothing read and nothing armed. */
  predicate Calm(pc: Pc) {
    match pc
    case Beating(next) => Calm(next)
    case Checking(next) => Calm(next)
    case Applying(_) => false
    case _ => Writes(pc) ==> pc.revision.None?
  }

  predicate Ordinary(pc: Pc) {
    pc.Beating? || pc.Checking? ==> Calm(pc.next)
  }

  /** A worker arms only after it has read the revision, which it can only while its job is listed. */
  predicate PcMoves(before: Pc, after: Pc, listed: bool) {
    && (Unsent(after).None? || Unsent(after) == Unsent(before) || before == Summarizing)
    && (Ordinary(before) ==>
          && Ordinary(after)
          && (after.Applying? ==> after == before)
          && (AboutToArm(after) ==> after == before || listed))
  }

  // ----- Sends

  /** The send was made and may have delivered, or its worker may still make it. */
  predicate MayDeliver(w: World, c: nat)
    requires c < |w.commits|
  {
    var commit := w.commits[c];
    var id := (commit.job, commit.token);
    commit.fate == Launched || (commit.fate == Armed && id in w.workers && w.workers[id].pc.Applying?)
  }

  /** No new commit; a fate changes only from armed, and only at the hand of the worker that armed it. */
  ghost predicate Settles(w: World, w': World) {
    && w.issued <= w'.issued && w.acked <= w'.acked && |w'.commits| == |w.commits|
    && forall c | 0 <= c < |w.commits| ::
         w'.commits[c] == w.commits[c] || (MayDeliver(w, c) && w'.commits[c] == w.commits[c].(fate := w'.commits[c].fate)
                                           && w.commits[c].fate == Armed && w'.commits[c].fate != Armed)
  }

  /** One worker moves; it gets a digest to send only by summarizing what is not acknowledged. */
  ghost predicate WorkerMoves(w: World, w': World, id: Id)
    requires id in w.workers
  {
    && w'.workers.Keys == w.workers.Keys
    && (forall k | k in w.workers && k != id :: w'.workers[k] == w.workers[k])
    && w'.workers[id] == w.workers[id].(pc := w'.workers[id].pc)
    && PcMoves(w.workers[id].pc, w'.workers[id].pc, Listed(w.store, id.0))
    && (w.workers[id].pc == Summarizing && Unsent(w'.workers[id].pc).Some? ==>
          Unsent(w'.workers[id].pc).value < |w'.issued| && w'.issued[Unsent(w'.workers[id].pc).value].from == w.acked)
  }

  /** Everything but leases and cursors stands; no job gets a lease or an owner it did not have, and cursors change only for
      the newest claim of the job. */
  ghost predicate StoreKept(s: State, t: State, id: Id)
    requires Shaped(s)
  {
    && t == s.(runtimes := t.runtimes, cursors := t.cursors) && |t.runtimes| == |s.runtimes|
    && (forall j | 0 <= j < |s.jobs| :: t.runtimes[j].fence == s.runtimes[j].fence && LeaseKept(s.runtimes[j], t.runtimes[j]))
    && (t.cursors == s.cursors
        || (&& id.0 < |s.runtimes| && s.runtimes[id.0].fence == id.1
            && forall j: nat, name | j != id.0 :: CursorOf(t, j, name) == CursorOf(s, j, name)))
  }

  predicate LeaseKept(a: Runtime, b: Runtime) {
    b.lease.Some? ==> a.lease.Some? && a.lease.value.owner == b.lease.value.owner
  }

  /** The worker can arm its send at once, if the clock allows. */
  predicate Poised(w: World, id: Id) {
    && id in w.workers && id.0 < |w.store.runtimes|
    && AboutToArm(w.workers[id].pc)
    && Holds(w.store.runtimes[id.0], w.workers[id].owner, id.1)
    && w.workers[id].pc.revision.value == CursorOf(w.store, id.0, DeliveryState).revision
  }

  /** A poised worker arms the send it was about to make. */
  ghost predicate Arms(w: World, w': World, id: Id)
    requires id in w.workers
  {
    && Poised(w, id)
    && w'.issued == w.issued && w'.acked == w.acked
    && w'.commits == w.commits + [Commit(id.0, id.1, w.workers[id].pc.w.digest, Armed)]
    && w'.workers == w.workers[id := w.workers[id].(pc := Applying(w.workers[id].pc.w))]
  }

  // ----- Each kind of move

  lemma WrappedUnsent(pc: Pc)
    ensures Unsent(Beating(pc)) == Unsent(pc) && Unsent(Beating(Checking(pc))) == Unsent(pc)
    ensures Calm(pc) ==> Ordinary(Beating(pc)) && Ordinary(Beating(Checking(pc)))
  {
    assert Unsent(Checking(pc)) == Unsent(pc);
    assert Calm(Checking(pc)) == Calm(pc);
  }

  lemma CalmIsOrdinary(pc: Pc)
    requires Calm(pc)
    ensures Ordinary(pc) && !pc.Applying? && !AboutToArm(pc)
  {
  }

  /** A worker that only moves on changes nothing else. */
  lemma AtShape(w: World, id: Id, pc: Pc)
    requires Shaped(w.store) && id in w.workers
    requires PcMoves(w.workers[id].pc, pc, Listed(w.store, id.0))
    requires w.workers[id].pc == Summarizing ==> Unsent(pc).None?
    ensures StoreKept(w.store, At(w, id, pc).store, id) && Settles(w, At(w, id, pc)) && WorkerMoves(w, At(w, id, pc), id)
  {
    hide PcMoves, Unsent, MayDeliver, Listed;
  }

  lemma SameShape(w: World, id: Id)
    requires Shaped(w.store) && id in w.workers
    ensures StoreKept(w.store, w.store, id) && Settles(w, w) && WorkerMoves(w, w, id)
  {
    hide MayDeliver;
    assert PcMoves(w.workers[id].pc, w.workers[id].pc, Listed(w.store, id.0));
    assert w.workers[id].pc == Summarizing ==> Unsent(w.workers[id].pc).None?;
  }

  lemma BeatsShape(w: World, m: Move, id: Id)
    requires Shaped(w.store) && id in w.workers && m.Beats?
    ensures var w' := Acts(w, m, id); StoreKept(w.store, w'.store, id) && Settles(w, w') && WorkerMoves(w, w', id)
  {
    hide PcMoves, Unsent, MayDeliver, Listed;
    SameShape(w, id);
    var me := w.workers[id];
    if me.pc.Beating? {
      NextMoves(me.pc, Listed(w.store, id.0));
      StoppedMoves(me.pc, Listed(w.store, id.0));
    }
  }

  lemma NextMoves(pc: Pc, listed: bool)
    requires pc.Beating? || pc.Checking?
    ensures PcMoves(pc, pc.next, listed)
  {
    if Calm(pc.next) { CalmIsOrdinary(pc.next); }
  }

  lemma StoppedMoves(pc: Pc, listed: bool)
    ensures PcMoves(pc, Stopped, listed) && Unsent(Stopped).None?
  {
  }

  lemma CallShape(w: World, m: Move, id: Id)
    requires Shaped(w.store) && id in w.workers
    requires m.Crashes? || m.Registers? || m.LooksUp? || m.Reads? || m.HearsAck? || m.Checks? || m.ReadsRevision? || m.Resumes?
             || m.Previews? || m.Replies?
    ensures var w' := Acts(w, m, id); StoreKept(w.store, w'.store, id) && Settles(w, w') && WorkerMoves(w, w', id)
  {
    hide StoreKept, Settles, WorkerMoves, CallMoves, Acts;
    SameShape(w, id);
    var w' := Acts(w, m, id);
    if w' != w {
      if m.Resumes? || m.Previews? || m.Replies? { ReplyMovesOn(w, m, id); } else { CallMovesOn(w, m, id); }
      CallMovesAt(w, w', id);
      AtShape(w, id, w'.workers[id].pc);
    }
  }

  /** The worker leaves for a place it may move to, and nothing else changes. */
  ghost predicate CallMoves(w: World, w': World, id: Id)
    requires id in w.workers
  {
    && id in w'.workers && w' == At(w, id, w'.workers[id].pc)
    && PcMoves(w.workers[id].pc, w'.workers[id].pc, Listed(w.store, id.0))
    && (w.workers[id].pc == Summarizing ==> Unsent(w'.workers[id].pc).None?)
  }

  lemma CallMovesAt(w: World, w': World, id: Id)
    requires id in w.workers && CallMoves(w, w', id)
    ensures id in w'.workers && w' == At(w, id, w'.workers[id].pc)
    ensures PcMoves(w.workers[id].pc, w'.workers[id].pc, Listed(w.store, id.0))
    ensures w.workers[id].pc == Summarizing ==> Unsent(w'.workers[id].pc).None?
  {
  }

  lemma CallMovesOn(w: World, m: Move, id: Id)
    requires Shaped(w.store) && id in w.workers
    requires m.Crashes? || m.Registers? || m.LooksUp? || m.Reads? || m.HearsAck? || m.Checks? || m.ReadsRevision?
    ensures Acts(w, m, id) == w || CallMoves(w, Acts(w, m, id), id)
  {
    hide RunClaimCurrent, Carries, WriteOf, CursorOf;
    var pc := w.workers[id].pc;
    StoppedMoves(pc, Listed(w.store, id.0));
    if m.Checks? && pc.Checking? { NextMoves(pc, Listed(w.store, id.0)); }
  }

  lemma ReplyMovesOn(w: World, m: Move, id: Id)
    requires Shaped(w.store) && id in w.workers && (m.Resumes? || m.Previews? || m.Replies?)
    ensures Acts(w, m, id) == w || CallMoves(w, Acts(w, m, id), id)
  {
    hide Carries, Value;
    var pc := w.workers[id].pc;
    StoppedMoves(pc, Listed(w.store, id.0));
    if m.Previews? && pc.Previewing? { WrappedUnsent(Marking(pc.w, Arm, None)); }
    if m.Replies? && pc.Awaiting? { WrappedUnsent(Marking(pc.w, NoteMessage(m.message), None)); }
    if m.Resumes? && pc.Resuming? { WrappedUnsent(Reading); }
  }

  /** A worker that moves on while the feed or the history grows. */
  lemma GrowsShape(w: World, v: World, id: Id, pc: Pc)
    requires Shaped(w.store) && id in w.workers
    requires v == w.(issued := v.issued, verified := v.verified, ackRequests := v.ackRequests) && w.issued <= v.issued
    requires PcMoves(w.workers[id].pc, pc, Listed(w.store, id.0))
    requires w.workers[id].pc == Summarizing && Unsent(pc).Some? ==>
               Unsent(pc).value < |v.issued| && v.issued[Unsent(pc).value].from == w.acked
    ensures StoreKept(w.store, At(v, id, pc).store, id) && Settles(w, At(v, id, pc)) && WorkerMoves(w, At(v, id, pc), id)
  {
    hide PcMoves, Unsent, MayDeliver, Listed;
  }

  lemma SummarizesShape(w: World, m: Move, id: Id)
    requires Shaped(w.store) && id in w.workers && m.Summarizes?
    ensures var w' := Acts(w, m, id); StoreKept(w.store, w'.store, id) && Settles(w, w') && WorkerMoves(w, w', id)
  {
    hide StoreKept, Settles, WorkerMoves, Listed;
    SameShape(w, id);
    var w' := Acts(w, m, id);
    if w' != w {
      var v := w.(issued := w'.issued);
      var pc := w'.workers[id].pc;
      assert w' == At(v, id, pc);
      GrowsShape(w, v, id, pc);
    }
  }

  lemma FeedShape(w: World, m: Move, id: Id)
    requires Shaped(w.store) && id in w.workers && (m.ReadsBack? || m.RequestsAck?)
    ensures var w' := Acts(w, m, id); StoreKept(w.store, w'.store, id) && Settles(w, w') && WorkerMoves(w, w', id)
  {
    hide StoreKept, Settles, WorkerMoves, Listed, PcMoves;
    SameShape(w, id);
    var w' := Acts(w, m, id);
    if w' != w {
      FeedMoves(w, m, id);
      var v := w.(verified := w'.verified, ackRequests := w'.ackRequests);
      assert v == v.(issued := w.issued) && w' == At(v, id, w'.workers[id].pc);
      GrowsShape(w, v, id, w'.workers[id].pc);
    }
  }

  lemma FeedMoves(w: World, m: Move, id: Id)
    requires Shaped(w.store) && id in w.workers && (m.ReadsBack? || m.RequestsAck?)
    ensures var pc, pc' := w.workers[id].pc, Acts(w, m, id).workers[id].pc;
            Acts(w, m, id) != w ==> PcMoves(pc, pc', Listed(w.store, id.0)) && pc != Summarizing
  {
    hide Listed;
    var pc := w.workers[id].pc;
    StoppedMoves(pc, Listed(w.store, id.0));
    if m.ReadsBack? && pc.ReadingBack? { WrappedUnsent(Marking(pc.w, NoteDelivered, None)); }
  }

  lemma AppliesShape(w: World, m: Move, id: Id)
    requires WorldValid(w) && Shaped(w.store) && id in w.workers && m.Applies?
    ensures var w' := Acts(w, m, id); StoreKept(w.store, w'.store, id) && Settles(w, w') && WorkerMoves(w, w', id)
  {
    hide Valid, FeedSound, CommitsSound, RecordsSound, WorkersSound;
    SameShape(w, id);
    if w.workers[id].pc.Applying? && HasCommit(w, id) { ApplyingSends(w, id); }
  }

  lemma WritesMoves(pc: Pc, listed: bool)
    requires Writes(pc)
    ensures AboutToArm(pc) ==> AfterWrite(pc) == Applying(pc.w)
    ensures !(pc.Marking? && pc.mark == Arm) ==> PcMoves(pc, AfterWrite(pc), listed)
  {
    if pc.Preparing? { WrappedUnsent(Previewing(pc.w)); }
    if pc.Clearing? { WrappedUnsent(Reading); }
  }

  lemma CursorWritten(s: State, j: nat, name: CursorName, value: Option<CursorValue>, expected: nat, owner: Owner, token: nat, now: Time)
    requires Shaped(s) && UpdateCursor(s, j, name, value, expected, owner, token, now).Ok?
    ensures var t := UpdateCursor(s, j, name, value, expected, owner, token, now).state;
            && StoreKept(s, t, (j, token))
            && j < |s.runtimes| && Holds(s.runtimes[j], owner, token) && CursorOf(s, j, name).revision == expected
  {
  }

  lemma WritesShape(w: World, m: Move, id: Id)
    requires Shaped(w.store) && id in w.workers && m.WritesCursor?
    ensures var w' := Acts(w, m, id);
            StoreKept(w.store, w'.store, id) && if |w'.commits| == |w.commits| then Settles(w, w') && WorkerMoves(w, w', id) else Arms(w, w', id)
  {
    hide UpdateCursor, StoreKept, Settles, WorkerMoves, PcMoves, CursorOf, Unsent, MayDeliver;
    SameShape(w, id);
    var me := w.workers[id];
    if Writes(me.pc) && me.pc.revision.Some? {
      var (name, value) := WriteOf(w.issued, me.pc);
      WritesMoves(me.pc, Listed(w.store, id.0));
      StoppedMoves(me.pc, Listed(w.store, id.0));
      var r := UpdateCursor(w.store, id.0, name, value, me.pc.revision.value, me.owner, id.1, m.now);
      if r.Ok? {
        CursorWritten(w.store, id.0, name, value, me.pc.revision.value, me.owner, id.1, m.now);
        if !AboutToArm(me.pc) { WroteShape(w, r.state, id, AfterWrite(me.pc)); }
      } else {
        AtShape(w, id, Stopped);
      }
    }
  }

  lemma WroteShape(w: World, s: State, id: Id, pc: Pc)
    requires Shaped(w.store) && id in w.workers && PcMoves(w.workers[id].pc, pc, Listed(w.store, id.0))
    requires w.workers[id].pc != Summarizing
    ensures Settles(w, At(w.(store := s), id, pc)) && WorkerMoves(w, At(w.(store := s), id, pc), id)
  {
    hide PcMoves, Unsent, MayDeliver, Listed;
  }

  /** A move of a worker arms one send, or only settles what was armed. */
  lemma ActsShape(w: World, m: Move, id: Id)
    requires WorldValid(w) && Shaped(w.store) && id in w.workers
    requires !m.Elsewhere? && !m.Claims? && !m.Delivers? && !m.Acknowledges?
    ensures var w' := Acts(w, m, id);
            StoreKept(w.store, w'.store, id) && if |w'.commits| == |w.commits| then Settles(w, w') && WorkerMoves(w, w', id) else Arms(w, w', id)
  {
    hide WorldValid, Acts, StoreKept, WorkerMoves, Arms, MayDeliver;
    match m {
      case Beats(_, _, _) => BeatsShape(w, m, id);
      case WritesCursor(_, _) => WritesShape(w, m, id);
      case Applies(_, _) => AppliesShape(w, m, id);
      case Summarizes(_, _, _) => SummarizesShape(w, m, id);
      case ReadsBack(_, _) => FeedShape(w, m, id);
      case RequestsAck(_) => FeedShape(w, m, id);
      case _ => CallShape(w, m, id);
    }
  }

  /** No worker delivers a message or moves the acknowledgement itself. */
  lemma ActsAlone(w: World, m: Move, id: Id)
    requires Shaped(w.store) && id in w.workers
    ensures Acts(w, m, id).messages == w.messages && Acts(w, m, id).acked == w.acked
  {
    hide WriteOf, AfterWrite, UpdateCursor, Heartbeat, Resume, RunClaimCurrent, Carries, WithRevision, Listed;
  }
}

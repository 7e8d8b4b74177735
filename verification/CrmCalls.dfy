/** What the answer to each call makes a worker of the digest delivery do, and what came before every send. */
module CrmCalls {
  import opened Options
  import opened Tables
  import opened Steps
  import opened CrmDigest
  import opened CrmInvariant
  import opened CrmSafety
  import opened CrmPromises

  predicate StopsAt(w: World, u: World, id: Id) {
    id in u.workers && u.workers[id].pc == Stopped && u.commits == w.commits && u.issued == w.issued && u.acked == w.acked
  }

  /** A worker stops at every answer that is not the one it needs.  Its claim: a lost lease or claim, a job that
      is not listed. */
  lemma LostClaimStops(cal: Calendar, w: World, id: Id, seconds: int, now: Time)
    requires Shaped(w.store) && id in w.workers
    ensures var me := w.workers[id];
            var current := RunClaimCurrent(w.store, Claim(me.run, id.0, me.owner, me.revision, id.1), now);
            && StopsAt(w, Do(cal, w, Crashes(id)), id)
            && (me.pc.Beating? && !Heartbeat(w.store, id.0, me.run, me.owner, id.1, seconds, now).1 ==> StopsAt(w, Do(cal, w, Beats(id, seconds, now)), id))
            && (me.pc.Checking? && !current ==> StopsAt(w, Do(cal, w, Checks(id, now)), id))
            && (me.pc.Resuming? && !Listed(w.store, id.0) ==> StopsAt(w, Do(cal, w, Resumes(id)), id))
            && (Writes(me.pc) && !Listed(w.store, id.0) ==> StopsAt(w, Do(cal, w, ReadsRevision(id)), id))
  {
    hide RunClaimCurrent, Heartbeat, Resume, WriteOf, WithRevision, CursorOf;
  }

  /** The bridge: no preview token, a message that is not found, a reply or a read-back that verifies nothing. */
  lemma BridgeStops(cal: Calendar, w: World, id: Id, message: nat)
    requires Shaped(w.store) && id in w.workers
    ensures var me := w.workers[id];
            && (me.pc.LookingUp? && !Carries(w, message, me.pc.w.digest) ==> StopsAt(w, Do(cal, w, LooksUp(id, message)), id))
            && (me.pc.Previewing? ==> StopsAt(w, Do(cal, w, Previews(id, false)), id))
            && (me.pc.Awaiting? && !Carries(w, message, me.pc.w.digest) ==> StopsAt(w, Do(cal, w, Replies(id, message)), id))
            && (me.pc.ReadingBack? ==> StopsAt(w, Do(cal, w, ReadsBack(id, false)), id))
  {
    hide Carries;
  }

  /** The feed: no events, an acknowledgement that falls short. */
  lemma FeedStops(cal: Calendar, w: World, id: Id)
    requires Shaped(w.store) && id in w.workers
    ensures var me := w.workers[id];
            && (me.pc == Reading ==> StopsAt(w, Do(cal, w, Reads(id, false)), id))
            && (me.pc.AwaitingAck? && w.acked < me.pc.w.through ==> StopsAt(w, Do(cal, w, HearsAck(id)), id))
  {
  }

  /** A write under a lost lease, or of a cursor that changed since it was read, stops the worker. */
  lemma BadWriteStops(cal: Calendar, w: World, id: Id, now: Time)
    requires Shaped(w.store) && id in w.workers && Writes(w.workers[id].pc) && w.workers[id].pc.revision.Some?
    requires var me := w.workers[id];
             || !(id.0 < |w.store.jobs| && Holds(w.store.runtimes[id.0], me.owner, id.1) && LeaseActive(w.store.runtimes[id.0], now))
             || CursorOf(w.store, id.0, WriteOf(w.issued, me.pc).0).revision != me.pc.revision.value
    ensures var u := Do(cal, w, WritesCursor(id, now)); StopsAt(w, u, id) && u.store == w.store
  {
    hide CursorOf, AfterWrite;
  }

  /** What the feed may answer: any acknowledgement up to the present one, and a digest made before for the same
      events or a new one of the events after the acknowledgement. */
  lemma AnswersAllowed(cal: Calendar, w: World, id: Id, seen: nat, digest: nat, made: Digest)
    requires Shaped(w.store) && id in w.workers
    ensures w.workers[id].pc == Registering && seen <= w.acked ==> Do(cal, w, Registers(id, seen)) == At(w, id, Resuming(seen))
    ensures w.workers[id].pc == Reading ==> Do(cal, w, Reads(id, true)) == At(w, id, Summarizing)
    ensures w.workers[id].pc == Summarizing && digest < |w.issued| && w.issued[digest].from == w.acked ==>
              Do(cal, w, Summarizes(id, digest, made)) == At(w, id, Preparing(Work(digest, digest, w.issued[digest].through, w.issued[digest].text, true), 0, None))
    ensures w.workers[id].pc == Summarizing && digest == |w.issued| && made.from == w.acked < made.through ==>
              Do(cal, w, Summarizes(id, digest, made))
              == At(w.(issued := w.issued + [made]), id, Preparing(Work(digest, digest, made.through, made.text, true), 0, None))
  {
  }

  /** Any send that went out may be delivered, and any acknowledgement asked for may take effect. */
  lemma EventsAllowed(cal: Calendar, w: World, digest: nat, c: nat)
    requires Shaped(w.store)
    ensures c < |w.commits| && w.commits[c].fate == Launched ==> Do(cal, w, Delivers(c)) == w.(messages := w.messages + [w.commits[c].digest])
    ensures digest in w.ackRequests && digest < |w.issued| ==>
              Do(cal, w, Acknowledges(digest)).acked == if w.issued[digest].through > w.acked then w.issued[digest].through else w.acked
  {
  }

  /** A granted claim of a digest job gets a worker of its own, which begins with a heartbeat; others get
      none. */
  lemma ClaimsStart(cal: Calendar, w: World, owner: Owner, seconds: int, now: Time, pick: Option<nat>, due: seq<nat>)
    requires Shaped(w.store)
    ensures var (s, claim) := ClaimRun(cal, w.store, owner, seconds, now, pick, due);
            var u := Do(cal, w, Claims(owner, seconds, now, pick, due));
            if claim.Some? && claim.value.job < |w.store.jobs| && w.store.jobs[claim.value.job].template == Template.CrmDigest then
              u == w.(store := s, workers := w.workers[(claim.value.job, claim.value.token)
                                                       := Worker(owner, claim.value.run, claim.value.revision, Beating(Registering))])
            else u == w.(store := s)
  {
    hide ClaimRun;
    var (s, claim) := ClaimRun(cal, w.store, owner, seconds, now, pick, due);
    var u := Do(cal, w, Claims(owner, seconds, now, pick, due));
    if claim.None? { assert u == w.(store := s); }
    else if claim.value.job >= |w.store.jobs| { assert u == w.(store := s); }
    else if w.store.jobs[claim.value.job].template != Template.CrmDigest { assert u == w.(store := s); }
  }

  /** A heartbeat and a check of the claim stand between the preparation and the preview, and between the preview
      and the send; a heartbeat follows the reply and the read-back of the run's own message. */
  lemma ChecksBetween(cal: Calendar, w: World, id: Id, now: Time, message: nat)
    requires Shaped(w.store) && id in w.workers
    ensures var pc := w.workers[id].pc;
            && (pc.Preparing? && pc.k == 6 ==> AfterWrite(pc) == Beating(Checking(Previewing(pc.w))))
            && (pc.Previewing? ==> Do(cal, w, Previews(id, true)) == At(w, id, Beating(Checking(Marking(pc.w, Arm, None)))))
            && (pc.Awaiting? && Carries(w, message, pc.w.digest) ==>
                  Do(cal, w, Replies(id, message)) == At(w, id, Beating(Marking(pc.w, NoteMessage(message), None))))
            && (pc.ReadingBack? && 1 <= pc.message <= |w.messages| && pc.w.own ==>
                  Do(cal, w, ReadsBack(id, true))
                  == At(w.(verified := w.verified + {w.messages[pc.message - 1]}), id, Beating(Marking(pc.w, NoteDelivered, None))))
            && (Value(w.store, id.0, DeliveryState).None? && pc.Resuming? && Listed(w.store, id.0) ==>
                  Do(cal, w, Resumes(id)) == At(w, id, Beating(Reading)))
  {
    hide Carries;
  }

  // ----- What came before a send

  /** The worker has a token, and waits for the checks before its send. */
  predicate HasToken(pc: Pc)
    decreases pc
  {
    match pc
    case Beating(next) => HasToken(next)
    case Checking(next) => HasToken(next)
    case Marking(_, mark, _) => mark == Arm
    case _ => false
  }

  /** The checks are behind it as well: only the write of `sending` is left. */
  predicate IsCleared(pc: Pc)
    decreases pc
  {
    match pc
    case Beating(next) => IsCleared(next)
    case Marking(_, mark, _) => mark == Arm
    case _ => false
  }

  predicate PastPreview(w: World, id: Id) {
    id in w.workers && HasToken(w.workers[id].pc)
  }

  predicate PastChecks(w: World, id: Id) {
    id in w.workers && IsCleared(w.workers[id].pc)
  }

  /** The move in which the bridge gives the worker a token to send with. */
  predicate GetsToken(w: World, m: Move, id: Id) {
    m == Previews(id, true) && id in w.workers && w.workers[id].pc.Previewing?
  }

  /** The check that finds the claim current once the worker has its token. */
  ghost predicate FoundCurrent(w: World, m: Move, id: Id) {
    && Shaped(w.store) && m.Checks? && m.id == id && id in w.workers && w.workers[id].pc.Checking? && HasToken(w.workers[id].pc)
    && var me := w.workers[id]; RunClaimCurrent(w.store, Claim(me.run, id.0, me.owner, me.revision, id.1), m.now)
  }

  lemma {:induction false} ClearedHasToken(pc: Pc)
    ensures IsCleared(pc) ==> HasToken(pc)
    decreases pc
  {
    if pc.Beating? { ClearedHasToken(pc.next); }
  }

  lemma ResumeHasNoToken(s: State, j: nat, seen: nat)
    ensures !HasToken(Resume(s, j, seen)) && !IsCleared(Resume(s, j, seen))
  {
  }

  lemma WritesKeepToken(pc: Pc)
    requires Writes(pc)
    ensures !HasToken(AfterWrite(pc)) && !IsCleared(AfterWrite(pc))
    ensures forall revision :: HasToken(WithRevision(pc, revision)) == HasToken(pc) && IsCleared(WithRevision(pc, revision)) == IsCleared(pc)
  {
    if pc.Preparing? {
      assert !HasToken(Checking(Previewing(pc.w)));
      assert !HasToken(Beating(Checking(Previewing(pc.w))));
    }
  }

  lemma ActsPast(w: World, m: Move, id: Id)
    requires Shaped(w.store) && id in w.workers
    ensures var u := Acts(w, m, id);
            && (PastPreview(u, id) ==> PastPreview(w, id) || (m.Previews? && m.token && w.workers[id].pc.Previewing?))
            && (PastChecks(u, id) ==> PastChecks(w, id) || (m.Checks? && FoundCurrent(w, Checks(id, m.now), id)))
  {
    hide RunClaimCurrent, Heartbeat, UpdateCursor, CursorOf, AfterWrite, WriteOf, WithRevision, Resume, HasCommit;
    var pc := w.workers[id].pc;
    if pc.Checking? { ClearedHasToken(pc.next); }
    if Writes(pc) { WritesKeepToken(pc); }
    if pc.Resuming? { ResumeHasNoToken(w.store, id.0, pc.seen); }
    if pc.Previewing? {
      MarkToken(pc.w, Arm);
      assert m.Previews? && m.token ==> Acts(w, m, id).workers[id].pc == Beating(Checking(Marking(pc.w, Arm, None)));
    }
    if pc.ReadingBack? { MarkToken(pc.w, NoteDelivered); }
    if pc.Awaiting? && m.Replies? { MarkToken(pc.w, NoteMessage(m.message)); }
  }

  lemma MarkToken(work: Work, mark: Mark)
    ensures var pc := Marking(work, mark, None);
            && HasToken(pc) == HasToken(Beating(pc)) == HasToken(Checking(pc)) == HasToken(Beating(Checking(pc))) == (mark == Arm)
            && IsCleared(pc) == IsCleared(Beating(pc)) == (mark == Arm) && !IsCleared(Checking(pc)) && !IsCleared(Beating(Checking(pc)))
  {
    var pc := Marking(work, mark, None);
    assert HasToken(Checking(pc)) == HasToken(pc);
    assert !IsCleared(Checking(pc));
  }

  lemma ActsCommits(w: World, m: Move, id: Id)
    requires Shaped(w.store) && id in w.workers
    ensures var u := Acts(w, m, id);
            && (HasCommit(u, id) ==> HasCommit(w, id) || PastChecks(w, id))
            && (forall k | k != id && HasCommit(u, k) :: HasCommit(w, k))
            && (forall k | k != id :: (k in u.workers <==> k in w.workers) && (k in w.workers ==> u.workers[k] == w.workers[k]))
  {
    hide RunClaimCurrent, Heartbeat, UpdateCursor, CursorOf, AfterWrite, WriteOf, WithRevision, Resume;
    var u := Acts(w, m, id);
    forall k | HasCommit(u, k) ensures HasCommit(w, k) || (k == id && PastChecks(w, id)) {
      var c: nat :| CommitOf(u, k, c);
      if c < |w.commits| { assert CommitOf(w, k, c); }
    }
  }

  lemma StepsPast(cal: Calendar, w: World, m: Move, id: Id)
    requires Shaped(w.store)
    ensures var u := Do(cal, w, m);
            && (PastPreview(u, id) ==> PastPreview(w, id) || GetsToken(w, m, id))
            && (PastChecks(u, id) ==> PastChecks(w, id) || FoundCurrent(w, m, id))
            && (HasCommit(u, id) ==> HasCommit(w, id) || PastChecks(w, id))
  {
    hide Acts, Step, ClaimRun, RunClaimCurrent;
    if !m.Elsewhere? && !m.Claims? && !m.Delivers? && !m.Acknowledges? && m.id in w.workers {
      ActsPast(w, m, m.id);
      ActsCommits(w, m, m.id);
    }
    var u := Do(cal, w, m);
    if u.commits == w.commits && HasCommit(u, id) {
      var c :| CommitOf(u, id, c);
      assert CommitOf(w, id, c);
    }
  }

  ghost predicate TokenAt(cal: Calendar, w: World, moves: seq<Move>, id: Id, i: nat)
    requires i < |moves|
  {
    GetsToken(Story(cal, w, moves[..i]), moves[i], id)
  }

  ghost predicate CurrentAt(cal: Calendar, w: World, moves: seq<Move>, id: Id, i: nat)
    requires i < |moves|
  {
    FoundCurrent(Story(cal, w, moves[..i]), moves[i], id)
  }

  lemma ShiftAt(cal: Calendar, w: World, moves: seq<Move>, id: Id, i: nat)
    requires Shaped(w.store) && 1 <= i < |moves|
    ensures TokenAt(cal, w, moves, id, i) == TokenAt(cal, Do(cal, w, moves[0]), moves[1..], id, i - 1)
    ensures CurrentAt(cal, w, moves, id, i) == CurrentAt(cal, Do(cal, w, moves[0]), moves[1..], id, i - 1)
  {
    hide Do, GetsToken, FoundCurrent;
    assert moves[..i][0] == moves[0] && moves[..i][1..] == moves[1..][..i - 1];
    assert Story(cal, w, moves[..i]) == Story(cal, Do(cal, w, moves[0]), moves[1..][..i - 1]);
  }

  lemma FirstAt(cal: Calendar, w: World, moves: seq<Move>, id: Id)
    requires moves != []
    ensures TokenAt(cal, w, moves, id, 0) == GetsToken(w, moves[0], id)
    ensures CurrentAt(cal, w, moves, id, 0) == FoundCurrent(w, moves[0], id)
  {
    hide GetsToken, FoundCurrent;
    assert moves[..0] == [];
  }

  lemma {:induction false} PreviewBeforeSend(cal: Calendar, w: World, moves: seq<Move>, id: Id)
    requires WorldValid(w) && !PastPreview(w, id) && !HasCommit(w, id)
    requires HasCommit(Story(cal, w, moves), id) || PastPreview(Story(cal, w, moves), id)
    ensures exists i :: 0 <= i < |moves| && TokenAt(cal, w, moves, id, i)
    decreases |moves|
  {
    hide WorldValid, Do, PastPreview, PastChecks, HasCommit, GetsToken, FoundCurrent, TokenAt;
    if moves != [] {
      DoKeeps(cal, w, moves[0]);
      StepsPast(cal, w, moves[0], id);
      ChecksArePast(w, id);
      if GetsToken(w, moves[0], id) {
        FirstAt(cal, w, moves, id);
      } else {
        var u := Do(cal, w, moves[0]);
        PreviewBeforeSend(cal, u, moves[1..], id);
        var i :| 0 <= i < |moves[1..]| && TokenAt(cal, u, moves[1..], id, i);
        ShiftAt(cal, w, moves, id, i + 1);
      }
    }
  }

  lemma ChecksArePast(w: World, id: Id)
    ensures PastChecks(w, id) ==> PastPreview(w, id)
  {
    if id in w.workers { ClearedHasToken(w.workers[id].pc); }
  }

  lemma {:induction false} CheckBeforeSend(cal: Calendar, w: World, moves: seq<Move>, id: Id)
    requires WorldValid(w) && !PastChecks(w, id) && !HasCommit(w, id) && HasCommit(Story(cal, w, moves), id)
    ensures exists i :: 0 <= i < |moves| && CurrentAt(cal, w, moves, id, i)
    decreases |moves|
  {
    hide WorldValid, Do, PastPreview, PastChecks, HasCommit, GetsToken, FoundCurrent, CurrentAt;
    if moves != [] {
      DoKeeps(cal, w, moves[0]);
      StepsPast(cal, w, moves[0], id);
      if FoundCurrent(w, moves[0], id) {
        FirstAt(cal, w, moves, id);
      } else {
        var u := Do(cal, w, moves[0]);
        CheckBeforeSend(cal, u, moves[1..], id);
        var i :| 0 <= i < |moves[1..]| && CurrentAt(cal, u, moves[1..], id, i);
        ShiftAt(cal, w, moves, id, i + 1);
      }
    }
  }

  /** In every history a claim that arms a send got a preview token before, and was found current after that:
      its job listed and on, at the revision of the claim, and no hold. */
  lemma SendsAreChecked(cal: Calendar, start: nat, moves: seq<Move>, c: nat)
    requires c < |Told(cal, start, moves).commits|
    ensures var commit := Told(cal, start, moves).commits[c];
            && (exists i :: 0 <= i < |moves| && TokenAt(cal, Genesis(start), moves, (commit.job, commit.token), i))
            && (exists i :: 0 <= i < |moves| && CurrentAt(cal, Genesis(start), moves, (commit.job, commit.token), i))
  {
    hide WorldValid, TokenAt, CurrentAt, Story;
    GenesisValid(start);
    var id := (Told(cal, start, moves).commits[c].job, Told(cal, start, moves).commits[c].token);
    assert CommitOf(Told(cal, start, moves), id, c);
    PreviewBeforeSend(cal, Genesis(start), moves, id);
    CheckBeforeSend(cal, Genesis(start), moves, id);
  }
}

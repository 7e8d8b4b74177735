/** Every move keeps the invariant of the digest delivery. */
module CrmSafety {
  import opened Options
  import opened Tables
  import opened Steps
  import opened Invariants
  import opened Preservation
  import opened Histories
  import opened Promises
  import opened CrmDigest
  import opened CrmInvariant

  lemma TheCommitIs(w: World, id: Id, c: nat)
    requires TokensUnique(w) && CommitOf(w, id, c)
    ensures HasCommit(w, id) && TheCommit(w, id) == c
  {
    var k := TheCommit(w, id);
    assert k < c || c < k || k == c;
  }

  // ----- Frames

  /** The world grew, and nothing that claim `id` relies on changed. */
  ghost predicate Grows(w: World, w': World, id: Id, latest: bool) {
    && w.issued <= w'.issued && w.acked <= w'.acked && w.messages <= w'.messages && w.verified <= w'.verified
    && |w.commits| <= |w'.commits|
    && (forall c | 0 <= c < |w.commits| ::
          && w'.commits[c].job == w.commits[c].job && w'.commits[c].token == w.commits[c].token
          && w'.commits[c].digest == w.commits[c].digest
          && (Live(w'.commits[c]) ==> Live(w.commits[c]))
          && (w.commits[c].job == id.0 && w.commits[c].token == id.1 ==> w'.commits[c] == w.commits[c]))
    && (forall c | |w.commits| <= c < |w'.commits| ::
          && (w'.commits[c].job == id.0 ==> w'.commits[c].token != id.1)
          && (latest ==> w'.commits[c].job != id.0))
    && (latest ==> forall name :: Value(w'.store, id.0, name) == Value(w.store, id.0, name))
    && (forall c | 0 <= c < |w.commits| :: w.commits[c].digest < |w.issued|)
  }

  lemma CommitFrame(w: World, w': World, id: Id, latest: bool)
    requires Grows(w, w', id, latest) && TokensUnique(w) && TokensUnique(w')
    ensures HasCommit(w, id) == HasCommit(w', id)
    ensures HasCommit(w, id) ==> TheCommit(w, id) == TheCommit(w', id) && w.commits[TheCommit(w, id)] == w'.commits[TheCommit(w, id)]
  {
    if HasCommit(w, id) {
      var c := TheCommit(w, id);
      assert CommitOf(w', id, c);
      TheCommitIs(w', id, c);
    }
    if HasCommit(w', id) {
      assert CommitOf(w, id, TheCommit(w', id));
    }
  }

  lemma CoveredFrame(w: World, w': World, id: Id, e: nat, e': nat)
    requires Grows(w, w', id, true) && e <= e' && CoveredBy(w, id.0, e)
    ensures CoveredBy(w', id.0, e')
  {
  }

  lemma LastFrame(w: World, w': World, id: Id, c: nat)
    requires Grows(w, w', id, true) && LastOf(w, c, id.0)
    ensures LastOf(w', c, id.0)
  {
  }

  lemma WrittenFrame(w: World, w': World, id: Id, work: Work, k: nat)
    requires Grows(w, w', id, true) && work.digest < |w.issued| && Written(w, id.0, work, k)
    ensures Written(w', id.0, work, k)
  {
    forall i | 0 <= i < k < 7
      ensures Value(w'.store, id.0, PrepareWrite(work, w'.issued[work.digest].content, i).0) == PrepareWrite(work, w'.issued[work.digest].content, i).1
    {
      assert w'.issued[work.digest] == w.issued[work.digest];
    }
  }

  /** A worker stays sound while the world grows around it, and when a newer claim appears. */
  lemma {:induction false} SoundFrame(w: World, w': World, id: Id, pc: Pc, latest: bool, latest': bool)
    requires Grows(w, w', id, latest') && TokensUnique(w) && TokensUnique(w')
    requires Sound(w, id, pc, latest) && (latest' ==> latest)
    ensures Sound(w', id, pc, latest')
    decreases pc
  {
    hide TheCommit, CoveredBy, LastOf, Written, CommitOf, HasCommit;
    if pc.Beating? || pc.Checking? {
      SoundFrame(w, w', id, pc.next, latest, latest');
    } else {
      CommitFrame(w, w', id, latest');
      var j := id.0;
      if latest' {
        if CoveredBy(w, j, w.acked) { CoveredFrame(w, w', id, w.acked, w'.acked); }
        if pc.Preparing? {
          CoveredFrame(w, w', id, w.issued[pc.w.digest].from, w.issued[pc.w.digest].from);
          WrittenFrame(w, w', id, pc.w, pc.k);
        }
        if pc.Previewing? || (pc.Marking? && pc.mark == Arm) {
          CoveredFrame(w, w', id, w.issued[pc.w.digest].from, w.issued[pc.w.digest].from);
        }
        if pc.Applying? || pc.Awaiting? {
          LastFrame(w, w', id, TheCommit(w, id));
        }
      }
    }
  }

  /** Every worker but `id` stays sound. */
  lemma OthersSound(w: World, w': World, id: Id)
    requires WorkersSound(w) && TokensUnique(w) && TokensUnique(w')
    requires Shaped(w.store) && Shaped(w'.store) && Advances(w.store, w'.store)
    requires forall k | k in w'.workers && k != id :: k in w.workers && w'.workers[k] == w.workers[k]
    requires forall k | k in w'.workers && k != id && k.0 < |w.store.jobs| :: Grows(w, w', k, k.1 == w'.store.runtimes[k.0].fence)
    ensures forall k | k in w'.workers && k != id :: WorkerSound(w', k)
  {
    hide Sound, TokensUnique, Grows;
    forall k | k in w'.workers && k != id
      ensures WorkerSound(w', k)
    {
      assert WorkerSound(w, k);
      assert RowAdvances(w.store, w'.store, k.0);
      SoundFrame(w, w', k, w.workers[k].pc, k.1 == w.store.runtimes[k.0].fence, k.1 == w'.store.runtimes[k.0].fence);
    }
  }

  lemma StaysPut(w: World, w': World, id: Id, latest: bool)
    requires CommitsSound(w) && w' == w.(workers := w'.workers, store := w'.store)
    requires w'.store.cursors == w.store.cursors
    ensures Grows(w, w', id, latest)
  {
    forall c | 0 <= c < |w.commits| ensures w.commits[c].digest < |w.issued| { assert Known(w, c); }
  }

  /** One worker moves on; nothing else changes. */
  lemma AtKeeps(w: World, id: Id, pc: Pc)
    requires WorldValid(w) && id in w.workers
    requires id.0 < |w.store.jobs| ==> Sound(w, id, pc, id.1 == w.store.runtimes[id.0].fence)
    ensures WorldValid(At(w, id, pc))
  {
    hide Valid, Sound, Grows, FeedSound, Advances, CommitSound, RecordSound, Chained;
    ShapedOf(w.store);
    var w' := At(w, id, pc);
    BaseIgnoresWorkers(w, w');
    AdvancesReflexive(w.store);
    forall k | k in w'.workers && k != id && k.0 < |w.store.jobs| ensures Grows(w, w', k, k.1 == w'.store.runtimes[k.0].fence) {
      StaysPut(w, w', k, k.1 == w'.store.runtimes[k.0].fence);
    }
    OthersSound(w, w', id);
    var latest := id.1 == w.store.runtimes[id.0].fence;
    StaysPut(w, w', id, latest);
    SoundFrame(w, w', id, pc, latest, latest);
    assert WorkerSound(w, id);
  }

  lemma BaseIgnoresWorkers(w: World, w': World)
    requires FeedSound(w) && CommitsSound(w) && RecordsSound(w) && w' == w.(workers := w'.workers)
    ensures FeedSound(w') && CommitsSound(w') && RecordsSound(w')
  {
    assert AckedVerified(w') by {
      forall e | w'.start < e <= w'.acked ensures CoversVerified(w', e) { assert CoversVerified(w, e); }
    }
    forall c | 0 <= c < |w'.commits| ensures Known(w', c) && CommitSound(w', c) { assert Known(w, c) && CommitSound(w, c); }
    forall j | 0 <= j < |w'.store.jobs| ensures RecordSound(w', j) { assert RecordSound(w, j); }
  }

  // ----- Moves that touch the store only

  lemma BaseFollowsStore(w: World, s: State)
    requires FeedSound(w) && CommitsSound(w) && RecordsSound(w)
    requires Shaped(w.store) && Shaped(s) && Advances(w.store, s) && s.cursors == w.store.cursors
    ensures var w' := w.(store := s); FeedSound(w') && CommitsSound(w') && RecordsSound(w')
  {
    var w' := w.(store := s);
    assert AckedVerified(w') by {
      forall e | w'.start < e <= w'.acked ensures CoversVerified(w', e) { assert CoversVerified(w, e); }
    }
    forall c | 0 <= c < |w'.commits| ensures Known(w', c) && CommitSound(w', c) {
      assert Known(w, c) && CommitSound(w, c);
      assert RowAdvances(w.store, s, w.commits[c].job);
    }
    forall j | 0 <= j < |s.jobs| ensures RecordSound(w', j) {
      if j < |w.store.jobs| { assert RecordSound(w, j); }
    }
  }

  lemma MoreJobs(s: State, t: State)
    requires Shaped(s) && Shaped(t) && Advances(s, t)
    ensures |s.jobs| <= |t.jobs|
  {
  }

  lemma StoreKeeps(w: World, s: State)
    requires WorldValid(w) && Valid(s)
    requires Shaped(w.store) && Shaped(s) && Advances(w.store, s) && s.cursors == w.store.cursors
    ensures WorldValid(w.(store := s))
  {
    hide Valid, Sound, Grows, FeedSound, Advances, CommitSound, RecordsSound, Chained;
    var w' := w.(store := s);
    BaseFollowsStore(w, s);
    assert |w.store.jobs| <= |s.jobs| by { MoreJobs(w.store, s); }
    forall k | k in w'.workers && k.0 < |w.store.jobs| ensures Grows(w, w', k, k.1 == s.runtimes[k.0].fence) {
      StaysPut(w, w', k, k.1 == s.runtimes[k.0].fence);
    }
    forall id | id in w'.workers ensures WorkerSound(w', id) {
      var other: Id := (id.0 + 1, id.1);
      OthersSound(w, w', other);
    }
  }

  lemma CursorsStay(cal: Calendar, s: State, a: Action)
    requires Valid(s) && !a.DoUpdateCursor?
    ensures Step(cal, s, a).cursors == s.cursors
  {
    hide Valid, Mutate, SelectRun, OldestOutOfSync, FirstDeliverable;
    ShapedOf(s);
    if a.DoClaimRun? { SelectAdvances(cal, s, a.now, a.pick, a.due); }
    if a.DoCommand? { MutateAdvances(s, a.request, |s.commands|, a.context); }
  }

  lemma ElsewhereKeeps(cal: Calendar, w: World, a: Action)
    requires WorldValid(w) && !a.DoUpdateCursor?
    ensures Shaped(w.store) && WorldValid(w.(store := Step(cal, w.store, a)))
  {
    hide Valid, Step, Advances, FeedSound, CommitsSound, RecordsSound, WorkersSound;
    ShapedOf(w.store);
    StepAdvances(cal, w.store, a);
    ShapedOf(Step(cal, w.store, a));
    CursorsStay(cal, w.store, a);
    StoreKeeps(w, Step(cal, w.store, a));
  }

  /** A claim starts a worker under a token no worker has had. */
  lemma ClaimsKeeps(cal: Calendar, w: World, owner: Owner, seconds: int, now: Time, pick: Option<nat>, due: seq<nat>)
    requires WorldValid(w)
    ensures Shaped(w.store) && WorldValid(Do(cal, w, Claims(owner, seconds, now, pick, due)))
  {
    hide Valid, FeedSound, CommitsSound, RecordsSound, Sound, ClaimRun, Advances;
    ShapedOf(w.store);
    var a := DoClaimRun(owner, seconds, now, pick, due);
    ElsewhereKeeps(cal, w, a);
    var (s, claim) := ClaimRun(cal, w.store, owner, seconds, now, pick, due);
    var w1 := w.(store := s);
    if claim.Some? {
      ClaimGranted(cal, w.store, owner, seconds, now, pick, due);
      var id := (claim.value.job, claim.value.token);
      NoWorkerYet(w, id);
      NoCommitYet(w, w1, id);
      NewWorkerKeeps(w1, id, Worker(owner, claim.value.run, claim.value.revision, Beating(Registering)));
    }
  }

  lemma NoWorkerYet(w: World, id: Id)
    requires WorkersSound(w) && id.0 < |w.store.runtimes| && id.1 == w.store.runtimes[id.0].fence + 1
    ensures id !in w.workers
  {
    assert id in w.workers ==> WorkerSound(w, id);
  }

  lemma NoCommitYet(w: World, w1: World, id: Id)
    requires CommitsSound(w) && id.0 < |w.store.runtimes| && id.1 == w.store.runtimes[id.0].fence + 1
    requires w1.commits == w.commits
    ensures !HasCommit(w1, id)
  {
    forall c: nat | c < |w.commits| ensures !CommitOf(w1, id, c) { assert Known(w, c); }
  }

  lemma NewWorkerKeeps(w: World, id: Id, me: Worker)
    requires WorldValid(w) && id !in w.workers
    requires Shaped(w.store) && id.0 < |w.store.jobs| && id.1 == w.store.runtimes[id.0].fence
    requires me.pc == Beating(Registering) && !HasCommit(w, id)
    ensures WorldValid(w.(workers := w.workers[id := me]))
  {
    hide Valid, FeedSound, CommitsSound, RecordsSound, Advances;
    var w' := w.(workers := w.workers[id := me]);
    BaseIgnoresWorkers(w, w');
    AdvancesReflexive(w.store);
    forall k | k in w'.workers && k != id && k.0 < |w.store.jobs| ensures Grows(w, w', k, k.1 == w'.store.runtimes[k.0].fence) {
      StaysPut(w, w', k, k.1 == w'.store.runtimes[k.0].fence);
    }
    UniqueOf(w);
    UniqueOf(w');
    OthersSound(w, w', id);
    StaysPut(w, w', id, false);
    CommitFrame(w, w', id, false);
  }

  lemma UniqueOf(w: World)
    requires CommitsSound(w)
    ensures TokensUnique(w)
  {
  }

  // ----- Moves of one worker that leave the rest of the world alone

  /** While the record names a digest already acknowledged, or nothing is in flight, all is acknowledged. */
  lemma AllAcked(w: World, j: nat)
    requires CommitsSound(w)
    requires InFlight(w.store, j) ==> match Recorded(w.store, j)
                                      case Some(d) => d < |w.issued| && w.issued[d].through <= w.acked
                                      case None => false
    ensures CoveredBy(w, j, w.acked)
  {
    forall c | 0 <= c < |w.commits| && w.commits[c].job == j && Live(w.commits[c]) && w.commits[c].digest < |w.issued|
      ensures w.issued[w.commits[c].digest].through <= w.acked
    {
      assert Known(w, c) && CommitSound(w, c);
    }
  }

  lemma ResumedSound(w: World, id: Id)
    requires WorldValid(w) && id in w.workers && w.workers[id].pc.Resuming?
    ensures id.0 < |w.store.jobs| == |w.store.runtimes|
    ensures var pc := if Listed(w.store, id.0) then Resume(w.store, id.0, w.workers[id].pc.seen) else Stopped;
            Sound(w, id, pc, id.1 == w.store.runtimes[id.0].fence)
  {
    hide Valid, FeedSound, CommitsSound, HasCommit, CoveredBy;
    assert WorkerSound(w, id);
    var j := id.0;
    assert RecordSound(w, j);
    var pc := if Listed(w.store, j) then Resume(w.store, j, w.workers[id].pc.seen) else Stopped;
    if pc.Clearing? || pc == Beating(Reading) { AllAcked(w, j); }
  }

  lemma ResumesKeeps(w: World, m: Move, id: Id)
    requires WorldValid(w) && Shaped(w.store) && id in w.workers && m.Resumes?
    ensures WorldValid(Acts(w, m, id))
  {
    hide WorldValid, Sound, Resume;
    var me := w.workers[id];
    if me.pc.Resuming? {
      ResumedSound(w, id);
      AtKeeps(w, id, if Listed(w.store, id.0) then Resume(w.store, id.0, me.pc.seen) else Stopped);
    }
  }

  lemma SoundWrapped(w: World, id: Id, pc: Pc, latest: bool)
    ensures Sound(w, id, Beating(Checking(pc)), latest) == Sound(w, id, pc, latest)
  {
    assert Sound(w, id, Beating(Checking(pc)), latest) == Sound(w, id, Checking(pc), latest);
  }

  lemma QuietKeeps(w: World, m: Move, id: Id)
    requires WorldValid(w) && Shaped(w.store) && id in w.workers
    requires m.Crashes? || m.Checks? || m.Registers? || m.LooksUp? || m.Reads?
    ensures WorldValid(Acts(w, m, id))
  {
    hide Valid, FeedSound, CommitsSound, RecordsSound, Grows, Advances, HasCommit, CoveredBy, RunClaimCurrent;
    assert WorkerSound(w, id);
    var w' := Acts(w, m, id);
    if w' != w { AtKeeps(w, id, w'.workers[id].pc); }
  }

  lemma PreviewedSound(w: World, id: Id)
    requires WorldValid(w) && id in w.workers && w.workers[id].pc.Previewing?
    ensures id.0 < |w.store.jobs| == |w.store.runtimes|
    ensures Sound(w, id, Beating(Checking(Marking(w.workers[id].pc.w, Arm, None))), id.1 == w.store.runtimes[id.0].fence)
  {
    hide Valid, FeedSound, CommitsSound, RecordsSound, HasCommit, CoveredBy;
    assert WorkerSound(w, id);
    SoundWrapped(w, id, Marking(w.workers[id].pc.w, Arm, None), id.1 == w.store.runtimes[id.0].fence);
  }

  lemma RepliedSound(w: World, id: Id, message: nat)
    requires WorldValid(w) && id in w.workers && w.workers[id].pc.Awaiting? && Carries(w, message, w.workers[id].pc.w.digest)
    ensures id.0 < |w.store.jobs| == |w.store.runtimes|
    ensures Sound(w, id, Beating(Marking(w.workers[id].pc.w, NoteMessage(message), None)), id.1 == w.store.runtimes[id.0].fence)
  {
    hide Valid, FeedSound, CommitsSound, RecordsSound, HasCommit, CoveredBy;
    assert WorkerSound(w, id);
  }

  lemma BridgeKeeps(w: World, m: Move, id: Id)
    requires WorldValid(w) && Shaped(w.store) && id in w.workers
    requires m.Previews? || m.Replies?
    ensures WorldValid(Acts(w, m, id))
  {
    hide WorldValid, Sound;
    var pc := w.workers[id].pc;
    StoppedSound(w, id);
    if m.Previews? && pc.Previewing? { PreviewedSound(w, id); }
    if m.Replies? && pc.Awaiting? && Carries(w, m.message, pc.w.digest) { RepliedSound(w, id, m.message); }
    var w' := Acts(w, m, id);
    if w' != w { AtKeeps(w, id, w'.workers[id].pc); }
  }

  lemma ReadsRevisionKeeps(w: World, m: Move, id: Id)
    requires WorldValid(w) && Shaped(w.store) && id in w.workers && m.ReadsRevision?
    ensures WorldValid(Acts(w, m, id))
  {
    hide Valid, FeedSound, CommitsSound, RecordsSound, Grows, Advances, HasCommit, CoveredBy, WriteOf;
    assert WorkerSound(w, id);
    var pc := w.workers[id].pc;
    if Writes(pc) {
      var revision := Some(CursorOf(w.store, id.0, WriteOf(w.issued, pc).0).revision);
      AtKeeps(w, id, if Listed(w.store, id.0) then WithRevision(pc, revision) else Stopped);
    }
  }

  lemma HearsAckKeeps(w: World, m: Move, id: Id)
    requires WorldValid(w) && Shaped(w.store) && id in w.workers && m.HearsAck?
    ensures WorldValid(Acts(w, m, id))
  {
    hide Valid, FeedSound, CommitsSound, RecordsSound, Grows, Advances, HasCommit, CoveredBy;
    assert WorkerSound(w, id);
    var pc := w.workers[id].pc;
    if pc.AwaitingAck? {
      if w.acked >= pc.w.through && id.1 == w.store.runtimes[id.0].fence { AllAcked(w, id.0); }
      AtKeeps(w, id, if w.acked >= pc.w.through then Clearing(0, pc.w.own, None) else Stopped);
    }
  }

  // ----- Moves of the feed and the bridge

  ghost predicate FeedGrows(w: World, w': World) {
    && w' == w.(issued := w'.issued, acked := w'.acked, messages := w'.messages, verified := w'.verified, ackRequests := w'.ackRequests)
    && w.issued <= w'.issued && w.acked <= w'.acked && w.messages <= w'.messages && w.verified <= w'.verified
  }

  lemma GrowCommits(w: World, w': World)
    requires CommitsSound(w) && FeedGrows(w, w')
    ensures CommitsSound(w')
  {
    forall c | 0 <= c < |w'.commits| ensures Known(w', c) && CommitSound(w', c) { assert Known(w, c) && CommitSound(w, c); }
    forall a, b | 0 <= a < b < |w'.commits| && w'.commits[a].job == w'.commits[b].job && Live(w'.commits[a]) && Live(w'.commits[b])
                  && w'.commits[a].digest < |w'.issued| && w'.commits[b].digest < |w'.issued|
      ensures w'.issued[w'.commits[a].digest].through <= w'.issued[w'.commits[b].digest].from
    {
      assert Known(w, a) && Known(w, b);
    }
  }

  lemma GrowKeeps(w: World, w': World)
    requires WorldValid(w) && Shaped(w.store) && FeedGrows(w, w') && FeedSound(w')
    ensures WorldValid(w')
  {
    hide Valid, FeedSound, Sound, Advances, CommitSound, Chained, TokensUnique;
    GrowCommits(w, w');
    forall j | 0 <= j < |w'.store.jobs| ensures RecordSound(w', j) { assert RecordSound(w, j); }
    AdvancesReflexive(w.store);
    forall c | 0 <= c < |w.commits| ensures w.commits[c].digest < |w.issued| { assert Known(w, c); }
    UniqueOf(w);
    UniqueOf(w');
    forall id | id in w'.workers ensures WorkerSound(w', id) {
      var other: Id := (id.0 + 1, id.1);
      OthersSound(w, w', other);
    }
  }

  lemma SummarizesKeeps(w: World, m: Move, id: Id)
    requires WorldValid(w) && Shaped(w.store) && id in w.workers && m.Summarizes?
    ensures WorldValid(Acts(w, m, id))
  {
    hide Valid, CommitsSound, RecordsSound, Grows, Advances, HasCommit;
    var pc := w.workers[id].pc;
    assert WorkerSound(w, id);
    if pc == Summarizing {
      if m.digest < |w.issued| && w.issued[m.digest].from == w.acked {
        AtKeeps(w, id, Preparing(WorkOn(m.digest, w.issued[m.digest]), 0, None));
      } else if m.digest == |w.issued| && m.made.from == w.acked < m.made.through {
        var w' := w.(issued := w.issued + [m.made]);
        assert AckedVerified(w') by {
          forall e | w'.start < e <= w'.acked ensures CoversVerified(w', e) {
            assert CoversVerified(w, e);
            var d :| d in w.verified && d < |w.issued| && w.issued[d].from < e <= w.issued[d].through;
            assert w'.issued[d] == w.issued[d];
          }
        }
        GrowKeeps(w, w');
        assert WorkerSound(w', id);
        AtKeeps(w', id, Preparing(WorkOn(m.digest, m.made), 0, None));
      }
    }
  }

  lemma VerifiedKeeps(w: World, w': World, m: nat)
    requires WorldValid(w) && Shaped(w.store) && 1 <= m <= |w.messages| && w' == w.(verified := w.verified + {w.messages[m - 1]})
    ensures WorldValid(w')
  {
    hide Valid, CommitsSound, RecordsSound, WorkersSound, Grows, Advances;
    assert AckedVerified(w') by {
      forall e | w'.start < e <= w'.acked ensures CoversVerified(w', e) { assert CoversVerified(w, e); }
    }
    GrowKeeps(w, w');
  }

  /** Whoever has read its message back may note that it was delivered. */
  lemma VerifiedSound(w: World, id: Id, mark: Pc)
    requires WorldValid(w) && id in w.workers && w.workers[id].pc.ReadingBack? && w.workers[id].pc.message > 0
    requires w.workers[id].pc.message <= |w.messages| && w.messages[w.workers[id].pc.message - 1] in w.verified
    requires mark == Marking(w.workers[id].pc.w, NoteDelivered, None)
    ensures id.0 < |w.store.jobs| == |w.store.runtimes|
    ensures Sound(w, id, mark, id.1 == w.store.runtimes[id.0].fence) && Sound(w, id, Beating(mark), id.1 == w.store.runtimes[id.0].fence)
  {
    hide Valid, FeedSound, CommitsSound, RecordsSound, HasCommit;
    assert WorkerSound(w, id);
  }

  lemma ReadsBackKeeps(w: World, m: Move, id: Id)
    requires WorldValid(w) && Shaped(w.store) && id in w.workers && m.ReadsBack?
    ensures WorldValid(Acts(w, m, id))
  {
    hide WorldValid, Sound;
    var pc := w.workers[id].pc;
    if pc.ReadingBack? {
      if !m.verified || pc.message == 0 || pc.message > |w.messages| {
        StoppedSound(w, id);
        AtKeeps(w, id, Stopped);
      } else {
        var w' := w.(verified := w.verified + {w.messages[pc.message - 1]});
        VerifiedKeeps(w, w', pc.message);
        var mark := Marking(pc.w, NoteDelivered, None);
        VerifiedSound(w', id, mark);
        AtKeeps(w', id, if pc.w.own then Beating(mark) else mark);
      }
    }
  }

  lemma RequestsAckKeeps(w: World, m: Move, id: Id)
    requires WorldValid(w) && Shaped(w.store) && id in w.workers && m.RequestsAck?
    ensures WorldValid(Acts(w, m, id))
  {
    hide Valid, CommitsSound, RecordsSound, Grows, Advances, HasCommit;
    var pc := w.workers[id].pc;
    assert WorkerSound(w, id);
    if pc.Acking? {
      var w' := w.(ackRequests := w.ackRequests + {pc.w.ack});
      assert AckedVerified(w') by {
        forall e | w'.start < e <= w'.acked ensures CoversVerified(w', e) { assert CoversVerified(w, e); }
      }
      GrowKeeps(w, w');
      assert WorkerSound(w', id);
      AtKeeps(w', id, AwaitingAck(pc.w));
    }
  }

  lemma DeliversKeeps(w: World, c: nat)
    requires WorldValid(w) && Shaped(w.store) && c < |w.commits|
    ensures WorldValid(w.(messages := w.messages + [w.commits[c].digest]))
  {
    hide Valid, RecordsSound, WorkersSound, CommitSound, Chained, TokensUnique;
    assert Known(w, c);
    var w' := w.(messages := w.messages + [w.commits[c].digest]);
    assert AckedVerified(w') by {
      forall e | w'.start < e <= w'.acked ensures CoversVerified(w', e) { assert CoversVerified(w, e); }
    }
    GrowKeeps(w, w');
  }

  /** Processing an acknowledgement covers the new events by the digest it names. */
  lemma AcknowledgesKeeps(w: World, d: nat)
    requires WorldValid(w) && Shaped(w.store) && d in w.ackRequests && d < |w.issued| && w.issued[d].through > w.acked
    ensures WorldValid(w.(acked := w.issued[d].through))
  {
    hide Valid, RecordsSound, WorkersSound, CommitsSound;
    var w' := w.(acked := w.issued[d].through);
    assert AckedVerified(w') by {
      forall e | w'.start < e <= w'.acked ensures CoversVerified(w', e) {
        if e <= w.acked { assert CoversVerified(w, e); }
      }
    }
    GrowKeeps(w, w');
  }

  // ----- Heartbeats, sends and writes

  lemma BeatsKeeps(w: World, m: Move, id: Id)
    requires WorldValid(w) && Shaped(w.store) && id in w.workers && m.Beats?
    ensures WorldValid(Acts(w, m, id))
  {
    hide Valid, FeedSound, CommitsSound, RecordsSound, Grows, Advances, HasCommit, CoveredBy;
    var me := w.workers[id];
    if me.pc.Beating? {
      var a := DoHeartbeat(id.0, me.run, me.owner, id.1, m.seconds, m.now);
      var (s, alive) := Heartbeat(w.store, id.0, me.run, me.owner, id.1, m.seconds, m.now);
      HeartbeatKeeps(w.store, id.0, me.run, me.owner, id.1, m.seconds, m.now);
      ShapedOf(s);
      AdvancesSame(w.store, s);
      StoreKeeps(w, s);
      var w' := w.(store := s);
      assert WorkerSound(w', id);
      AtKeeps(w', id, if alive then me.pc.next else Stopped);
    }
  }

  /** The bridge takes the send, or refuses it before anything is sent. */
  lemma AppliesKeeps(w: World, m: Move, id: Id)
    requires WorldValid(w) && Shaped(w.store) && id in w.workers && m.Applies?
    ensures WorldValid(Acts(w, m, id))
  {
    hide Valid, FeedSound, RecordSound, Sound, Advances, AckedVerified;
    var me := w.workers[id];
    if me.pc.Applying? && HasCommit(w, id) {
      assert WorkerSound(w, id);
      var c := TheCommit(w, id);
      var w' := w.(commits := w.commits[c := w.commits[c].(fate := if m.refused then Retracted else Launched)]);
      ApplyingSends(w, id);
      FateCommits(w, id, me.pc.w, w', m.refused);
      FateBase(w, w');
      FateWorker(w, id, w', m.refused);
      AdvancesReflexive(w.store);
      forall k | k in w'.workers && k != id && k.0 < |w.store.jobs| ensures Grows(w, w', k, k.1 == w'.store.runtimes[k.0].fence) {
        FateGrows(w, w', k, c);
      }
      var pc := if m.refused then Marking(me.pc.w, Disarm, None) else Awaiting(me.pc.w);
      MoveWorkers(w, w', id, pc);
    }
  }

  lemma ApplyingSends(w: World, id: Id)
    requires WorkersSound(w) && id in w.workers && w.workers[id].pc.Applying?
    ensures Sends(w, id, w.workers[id].pc.w, Armed)
  {
    assert WorkerSound(w, id);
  }

  lemma FateGrows(w: World, w': World, k: Id, c: nat)
    requires CommitsSound(w) && c < |w.commits| == |w'.commits| && w' == w.(commits := w'.commits)
    requires w'.commits == w.commits[c := w'.commits[c]] && w'.commits[c] == w.commits[c].(fate := w'.commits[c].fate)
    requires Live(w.commits[c]) && !(w.commits[c].job == k.0 && w.commits[c].token == k.1)
    ensures forall latest :: Grows(w, w', k, latest)
  {
    forall c | 0 <= c < |w.commits| ensures w.commits[c].digest < |w.issued| { assert Known(w, c); }
  }

  lemma FateBase(w: World, w': World)
    requires FeedSound(w) && RecordsSound(w) && w' == w.(commits := w'.commits)
    ensures FeedSound(w') && RecordsSound(w')
  {
    assert AckedVerified(w') by {
      forall e | w'.start < e <= w'.acked ensures CoversVerified(w', e) { assert CoversVerified(w, e); }
    }
    forall j | 0 <= j < |w'.store.jobs| ensures RecordSound(w', j) { assert RecordSound(w, j); }
  }

  lemma FateCommits(w: World, id: Id, work: Work, w': World, refused: bool)
    requires CommitsSound(w) && Sends(w, id, work, Armed)
    requires w' == w.(commits := w.commits[TheCommit(w, id) := w.commits[TheCommit(w, id)].(fate := if refused then Retracted else Launched)])
    ensures CommitsSound(w')
  {
    forall k | 0 <= k < |w'.commits| ensures Known(w', k) && CommitSound(w', k) { assert Known(w, k) && CommitSound(w, k); }
  }

  /** Once refused, the send is retracted, and every other live send of the job is acknowledged. */
  lemma FateWorker(w: World, id: Id, w': World, refused: bool)
    requires WorldValid(w) && Shaped(w.store) && id in w.workers && w.workers[id].pc.Applying? && HasCommit(w, id)
    requires w' == w.(commits := w.commits[TheCommit(w, id) := w.commits[TheCommit(w, id)].(fate := if refused then Retracted else Launched)])
    ensures var work := w.workers[id].pc.w;
            Sound(w', id, if refused then Marking(work, Disarm, None) else Awaiting(work), id.1 == w.store.runtimes[id.0].fence)
  {
    hide Valid, FeedSound, RecordsSound, Chained;
    assert WorkerSound(w, id);
    var work := w.workers[id].pc.w;
    var c := TheCommit(w, id);
    assert CommitOf(w', id, c);
    FateCommits(w, id, work, w', refused);
    TheCommitIs(w', id, c);
    if refused && id.1 == w.store.runtimes[id.0].fence {
      forall k | 0 <= k < |w'.commits| && w'.commits[k].job == id.0 && Live(w'.commits[k]) && w'.commits[k].digest < |w'.issued|
        ensures w'.issued[w'.commits[k].digest].through <= w'.acked
      {
        assert Known(w, k) && CommitSound(w, k);
        assert k != c && (k > c || k < c);
      }
    }
  }

  /** Puts together a world whose base is sound, whose other workers saw it grow, and whose worker moved. */
  lemma MoveWorkers(w: World, w': World, id: Id, pc: Pc)
    requires WorldValid(w) && id in w.workers && w'.workers == w.workers
    requires Valid(w'.store) && FeedSound(w') && CommitsSound(w') && RecordsSound(w')
    requires Shaped(w.store) && Shaped(w'.store) && Advances(w.store, w'.store) && |w'.store.jobs| == |w.store.jobs|
    requires id.0 < |w.store.jobs| && w'.store.runtimes[id.0].fence == w.store.runtimes[id.0].fence
    requires forall k | k in w'.workers && k != id && k.0 < |w.store.jobs| :: Grows(w, w', k, k.1 == w'.store.runtimes[k.0].fence)
    requires Sound(w', id, pc, id.1 == w'.store.runtimes[id.0].fence)
    ensures WorldValid(At(w', id, pc))
  {
    hide Valid, FeedSound, RecordsSound, Sound, Advances, Grows, CommitSound, Chained, TokensUnique;
    UniqueOf(w);
    UniqueOf(w');
    OthersSound(w, w', id);
    assert WorkerSound(w, id);
    var u := At(w', id, pc);
    BaseIgnoresWorkers(w', u);
    UniqueOf(u);
    forall k | k in u.workers ensures WorkerSound(u, k) {
      var latest := k.1 == w'.store.runtimes[k.0].fence;
      StaysPut(w', u, k, latest);
      assert k != id ==> WorkerSound(w', k);
      SoundFrame(w', u, k, u.workers[k].pc, latest, latest);
    }
  }

  /** The world after a fenced write of claim `id`, before the worker moves on. */
  ghost predicate Wrote(w: World, w': World, id: Id, name: CursorName, value: Option<CursorValue>) {
    && id in w.workers && WorkerSound(w, id) && id.1 == w.store.runtimes[id.0].fence
    && w' == w.(store := w'.store, commits := w'.commits)
    && w'.store == w.store.(cursors := w'.store.cursors)
    && w'.store.cursors.Keys == w.store.cursors.Keys + {(id.0, name)}
    && (forall j, n :: Value(w'.store, j, n) == if j == id.0 && n == name then value else Value(w.store, j, n))
    && (|| w'.commits == w.commits
        || (w'.commits == w.commits + [Commit(id.0, id.1, Arming(w.workers[id].pc), Armed)]))
  }

  function Arming(pc: Pc): nat {
    if pc.Marking? then pc.w.digest else 0
  }

  lemma WroteGrows(w: World, w': World, id: Id, name: CursorName, value: Option<CursorValue>, k: Id)
    requires CommitsSound(w) && Shaped(w.store) && Wrote(w, w', id, name, value) && k != id && k.0 < |w.store.jobs|
    ensures Grows(w, w', k, k.1 == w'.store.runtimes[k.0].fence)
  {
    hide Sound;
    forall c | 0 <= c < |w.commits| ensures w.commits[c].digest < |w.issued| { assert Known(w, c); }
  }

  lemma FeedSame(w: World, w': World)
    requires FeedSound(w) && w' == w.(store := w'.store, commits := w'.commits)
    ensures FeedSound(w')
  {
    forall e | w'.start < e <= w'.acked ensures CoversVerified(w', e) { assert CoversVerified(w, e); }
  }

  /** What is left to show for one write: the record of its job, its commits, and the worker itself. */
  lemma SameRecord(w: World, w': World, j: nat)
    requires w'.issued == w.issued && w'.messages == w.messages && w'.verified == w.verified
    requires forall n :: Value(w'.store, j, n) == Value(w.store, j, n)
    requires RecordSound(w, j)
    ensures RecordSound(w', j)
  {
    hide Value;
  }

  lemma OtherRecords(w: World, w': World, id: Id, name: CursorName, value: Option<CursorValue>)
    requires RecordsSound(w) && Wrote(w, w', id, name, value) && RecordSound(w', id.0)
    ensures RecordsSound(w')
  {
    hide RecordSound;
    forall j | 0 <= j < |w'.store.jobs| ensures RecordSound(w', j) {
      if j != id.0 { SameRecord(w, w', j); }
    }
  }

  lemma WroteKeeps(w: World, w': World, id: Id, name: CursorName, value: Option<CursorValue>, pc: Pc)
    requires WorldValid(w) && Shaped(w.store) && Wrote(w, w', id, name, value)
    requires RecordSound(w', id.0) && CommitsSound(w') && Sound(w', id, pc, true)
    ensures WorldValid(At(w', id, pc))
  {
    hide Valid, FeedSound, Sound, Advances, Grows, CommitsSound, WorkersSound, RecordSound;
    CursorsKeep(w.store, w'.store.cursors);
    AdvancesSame(w.store, w'.store);
    FeedSame(w, w');
    OtherRecords(w, w', id, name, value);
    forall k | k in w'.workers && k != id && k.0 < |w.store.jobs| ensures Grows(w, w', k, k.1 == w'.store.runtimes[k.0].fence) {
      WroteGrows(w, w', id, name, value, k);
    }
    MoveWorkers(w, w', id, pc);
  }

  /** Commits stay sound when the write leaves an in-flight record in flight, or when all of the job's
      live commits are acknowledged. */
  lemma WroteCommits(w: World, w': World, id: Id, name: CursorName, value: Option<CursorValue>)
    requires CommitsSound(w) && Shaped(w.store) && Wrote(w, w', id, name, value) && w'.commits == w.commits
    requires CoveredBy(w, id.0, w.acked) || (InFlight(w'.store, id.0) && Recorded(w'.store, id.0) == Recorded(w.store, id.0))
    ensures CommitsSound(w')
  {
    hide Sound;
    forall c | 0 <= c < |w'.commits| ensures Known(w', c) && CommitSound(w', c) {
      assert Known(w, c) && CommitSound(w, c);
      if w.commits[c].job != id.0 {
        assert InFlight(w'.store, w.commits[c].job) == InFlight(w.store, w.commits[c].job);
      }
    }
  }

  /** The first six writes leave the state unset. */
  lemma PartlyPrepared(w: World, w': World, id: Id)
    requires WorldValid(w) && Shaped(w.store) && id in w.workers && w.workers[id].pc.Preparing? && w.workers[id].pc.k < 6
    requires Wrote(w, w', id, WriteOf(w.issued, w.workers[id].pc).0, WriteOf(w.issued, w.workers[id].pc).1) && w'.commits == w.commits
    ensures RecordSound(w', id.0) && Sound(w', id, AfterWrite(w.workers[id].pc), true)
  {
    hide Valid, FeedSound, Advances, Grows, CommitsSound, RecordsSound, TokensUnique, HasCommit, CoveredBy, Written, Whole, MessageNoted;
    var pc := w.workers[id].pc;
    CommitFrame'(w, w', id);
    CoveredSame(w, w', id.0, w.issued[pc.w.digest].from);
    WrittenMore(w, w', id, pc.w, pc.k);
  }

  /** The last write makes the record whole. */
  lemma FullyPrepared(w: World, w': World, id: Id)
    requires WorldValid(w) && Shaped(w.store) && id in w.workers && w.workers[id].pc.Preparing? && w.workers[id].pc.k == 6
    requires Wrote(w, w', id, WriteOf(w.issued, w.workers[id].pc).0, WriteOf(w.issued, w.workers[id].pc).1) && w'.commits == w.commits
    ensures RecordSound(w', id.0) && Sound(w', id, AfterWrite(w.workers[id].pc), true)
  {
    hide Valid, FeedSound, Advances, Grows, CommitsSound, RecordsSound, TokensUnique, HasCommit, CoveredBy, Written, MessageNoted, Whole;
    var pc := w.workers[id].pc;
    CommitFrame'(w, w', id);
    CoveredSame(w, w', id.0, w.issued[pc.w.digest].from);
    WholeFromWritten(w, w', id.0, pc.w);
    SoundWrapped(w', id, Previewing(pc.w), true);
  }

  lemma PrepareKeeps(w: World, w': World, id: Id)
    requires WorldValid(w) && Shaped(w.store) && id in w.workers && w.workers[id].pc.Preparing? && Writes(w.workers[id].pc)
    requires Wrote(w, w', id, WriteOf(w.issued, w.workers[id].pc).0, WriteOf(w.issued, w.workers[id].pc).1) && w'.commits == w.commits
    ensures WorldValid(At(w', id, AfterWrite(w.workers[id].pc)))
  {
    hide Valid, FeedSound, Advances, Grows, CommitsSound, RecordsSound, TokensUnique, HasCommit, AfterWrite, RecordSound, Written;
    var (name, value) := WriteOf(w.issued, w.workers[id].pc);
    assert WorkerSound(w, id);
    AllAcked(w, id.0);
    WroteCommits(w, w', id, name, value);
    if w.workers[id].pc.k == 6 { FullyPrepared(w, w', id); } else { PartlyPrepared(w, w', id); }
    WroteKeeps(w, w', id, name, value, AfterWrite(w.workers[id].pc));
  }

  lemma CommitFrame'(w: World, w': World, id: Id)
    requires w'.commits == w.commits
    ensures HasCommit(w', id) == HasCommit(w, id)
  {
    if HasCommit(w, id) { assert CommitOf(w', id, TheCommit(w, id)); }
    if HasCommit(w', id) { assert CommitOf(w, id, TheCommit(w', id)); }
  }

  lemma CoveredSame(w: World, w': World, j: nat, e: nat)
    requires w'.commits == w.commits && w'.issued == w.issued
    ensures CoveredBy(w', j, e) == CoveredBy(w, j, e)
  {
  }

  lemma WrittenMore(w: World, w': World, id: Id, work: Work, k: nat)
    requires work.digest < |w.issued| && k < 6 && w'.issued == w.issued && Written(w, id.0, work, k)
    requires var (name, value) := PrepareWrite(work, w.issued[work.digest].content, k);
             forall n :: Value(w'.store, id.0, n) == if n == name then value else Value(w.store, id.0, n)
    ensures Written(w', id.0, work, k + 1)
  {
  }

  lemma WholeFromWritten(w: World, w': World, j: nat, work: Work)
    requires WorkSound(w, work) && w'.issued == w.issued && Written(w, j, work, 6)
    requires forall n :: Value(w'.store, j, n) == if n == DeliveryState then Some(PhaseText(Prepared)) else Value(w.store, j, n)
    ensures Whole(w', j, work.digest) && PhaseOf(w'.store, j) == Some(Prepared) && Recorded(w'.store, j) == Some(work.digest)
    ensures Value(w'.store, j, MessageId).None?
  {
    var content := w.issued[work.digest].content;
    assert forall i | 0 <= i < 6 :: Value(w.store, j, PrepareWrite(work, content, i).0) == PrepareWrite(work, content, i).1;
    assert Value(w.store, j, PrepareWrite(work, content, 0).0) == Some(AckText(work.ack));
    assert Value(w.store, j, PrepareWrite(work, content, 1).0) == Some(DigestText(work.digest));
    assert Value(w.store, j, PrepareWrite(work, content, 2).0) == Some(HashText(content));
    assert Value(w.store, j, PrepareWrite(work, content, 3).0) == Some(NumberText(work.through));
    assert Value(w.store, j, PrepareWrite(work, content, 4).0) == Some(HashText(work.text));
    assert Value(w.store, j, PrepareWrite(work, content, 5).0) == None;
  }

  lemma ClearKeeps(w: World, w': World, id: Id)
    requires WorldValid(w) && Shaped(w.store) && id in w.workers && w.workers[id].pc.Clearing? && Writes(w.workers[id].pc)
    requires Wrote(w, w', id, WriteOf(w.issued, w.workers[id].pc).0, WriteOf(w.issued, w.workers[id].pc).1) && w'.commits == w.commits
    ensures WorldValid(At(w', id, AfterWrite(w.workers[id].pc)))
  {
    hide Valid, FeedSound, Advances, Grows, CommitsSound, WorkersSound, TokensUnique, HasCommit, CoveredBy;
    var pc := w.workers[id].pc;
    var (name, value) := WriteOf(w.issued, pc);
    WroteCommits(w, w', id, name, value);
    CommitFrame'(w, w', id);
    CoveredSame(w, w', id.0, w.acked);
    WroteKeeps(w, w', id, name, value, AfterWrite(pc));
  }

  /** Job `j` saw one write and nothing else. */
  ghost predicate OneWrite(w: World, w': World, j: nat, name: CursorName, value: Option<CursorValue>) {
    && w'.issued == w.issued && w'.messages == w.messages && w'.verified == w.verified && w'.acked == w.acked && w'.commits == w.commits
    && forall n :: Value(w'.store, j, n) == if n == name then value else Value(w.store, j, n)
  }

  lemma MarkRecord(w: World, w': World, id: Id, work: Work, mark: Mark)
    requires OneWrite(w, w', id.0, MarkWrite(mark).0, MarkWrite(mark).1) && mark != Arm
    requires RecordSound(w, id.0) && WorkSound(w, work) && MarkSound(w, id, work, mark, true)
    ensures RecordSound(w', id.0)
    ensures CoveredBy(w, id.0, w.acked) || (InFlight(w'.store, id.0) && Recorded(w'.store, id.0) == Recorded(w.store, id.0))
  {
    hide HasCommit, CoveredBy;
    var j := id.0;
    assert Recorded(w'.store, j) == Recorded(w.store, j);
    assert Whole(w', j, work.digest);
  }

  lemma MarkNext(w: World, w': World, id: Id, work: Work, mark: Mark)
    requires OneWrite(w, w', id.0, MarkWrite(mark).0, MarkWrite(mark).1) && mark != Arm
    requires WorkSound(w, work) && MarkSound(w, id, work, mark, true)
    ensures Sound(w', id, AfterWrite(Marking(work, mark, None)), true)
  {
    hide HasCommit, CoveredBy;
    CommitFrame'(w, w', id);
    assert Recorded(w'.store, id.0) == Recorded(w.store, id.0);
  }

  lemma MarkKeeps(w: World, w': World, id: Id)
    requires WorldValid(w) && Shaped(w.store) && id in w.workers && w.workers[id].pc.Marking? && w.workers[id].pc.mark != Arm
    requires Wrote(w, w', id, WriteOf(w.issued, w.workers[id].pc).0, WriteOf(w.issued, w.workers[id].pc).1) && w'.commits == w.commits
    ensures WorldValid(At(w', id, AfterWrite(w.workers[id].pc)))
  {
    hide Valid, FeedSound, CommitsSound, WorkersSound, CoveredBy, Wrote, RecordSound, Sound, WorkSound, MarkSound, OneWrite;
    var pc := w.workers[id].pc;
    var (name, value) := WriteOf(w.issued, pc);
    MarkJob(w, w', id, name, value);
    MarkRecord(w, w', id, pc.w, pc.mark);
    MarkNext(w, w', id, pc.w, pc.mark);
    WroteCommits(w, w', id, name, value);
    WroteKeeps(w, w', id, name, value, AfterWrite(pc));
  }

  lemma MarkJob(w: World, w': World, id: Id, name: CursorName, value: Option<CursorValue>)
    requires Shaped(w.store) && RecordsSound(w) && Wrote(w, w', id, name, value) && w.workers[id].pc.Marking? && w'.commits == w.commits
    ensures RecordSound(w, id.0) && OneWrite(w, w', id.0, name, value)
    ensures var pc := w.workers[id].pc; WorkSound(w, pc.w) && MarkSound(w, id, pc.w, pc.mark, true)
  {
    hide MarkSound, WorkSound;
  }

  /** Arming: the new send starts where every earlier live send of the job has ended. */
  lemma ArmCommits(w: World, w': World, id: Id)
    requires WorldValid(w) && Shaped(w.store) && id in w.workers && w.workers[id].pc.Marking? && w.workers[id].pc.mark == Arm
    requires Wrote(w, w', id, DeliveryState, Some(PhaseText(Sending)))
    requires w'.commits == w.commits + [Commit(id.0, id.1, w.workers[id].pc.w.digest, Armed)]
    ensures CommitsSound(w') && CommitOf(w', id, |w.commits|) && LastOf(w', |w.commits|, id.0)
  {
    hide Valid, WorkersSound;
    var work := w.workers[id].pc.w;
    assert Ready(w, id.0, work);
    forall c | 0 <= c < |w'.commits| ensures Known(w', c) && CommitSound(w', c) {
      if c < |w.commits| {
        assert Known(w, c) && CommitSound(w, c);
        if w.commits[c].job != id.0 && Live(w.commits[c]) && w.issued[w.commits[c].digest].through > w.acked {
          assert LastOf(w, c, w.commits[c].job);
          assert LastOf(w', c, w.commits[c].job);
        }
      }
    }
    assert TokensUnique(w') by {
      forall a | 0 <= a < |w.commits| && w.commits[a].job == id.0 ensures w.commits[a].token != id.1 {
        assert !CommitOf(w, id, a);
      }
    }
  }

  lemma ArmKeeps(w: World, w': World, id: Id)
    requires WorldValid(w) && Shaped(w.store) && id in w.workers && w.workers[id].pc.Marking? && w.workers[id].pc.mark == Arm
    requires Wrote(w, w', id, DeliveryState, Some(PhaseText(Sending)))
    requires w'.commits == w.commits + [Commit(id.0, id.1, w.workers[id].pc.w.digest, Armed)]
    ensures WorldValid(At(w', id, AfterWrite(w.workers[id].pc)))
  {
    hide Valid, FeedSound, Advances, Grows, CommitsSound, WorkersSound, TokensUnique, CoveredBy, LastOf;
    var pc := w.workers[id].pc;
    assert RecordSound(w, id.0);
    ArmCommits(w, w', id);
    UniqueOf(w');
    TheCommitIs(w', id, |w.commits|);
    WroteKeeps(w, w', id, DeliveryState, Some(PhaseText(Sending)), AfterWrite(pc));
  }

  /** A write goes through only for the newest claim of the job. */
  lemma WritesCursorKeeps(w: World, m: Move, id: Id)
    requires WorldValid(w) && Shaped(w.store) && id in w.workers && m.WritesCursor?
    ensures WorldValid(Acts(w, m, id))
  {
    hide Valid, FeedSound, RecordsSound, CommitsSound, Sound, Grows, Advances, WriteOf;
    var me := w.workers[id];
    if Writes(me.pc) && me.pc.revision.Some? {
      assert WorkerSound(w, id);
      var (name, value) := WriteOf(w.issued, me.pc);
      var r := UpdateCursor(w.store, id.0, name, value, me.pc.revision.value, me.owner, id.1, m.now);
      if r.Err? {
        StoppedSound(w, id);
        AtKeeps(w, id, Stopped);
      } else {
        var w' := w.(store := r.state);
        if me.pc.Marking? && me.pc.mark == Arm {
          ArmName(w, me.pc);
          var w2 := w'.(commits := w.commits + [Commit(id.0, id.1, me.pc.w.digest, Armed)]);
          ArmKeeps(w, w2, id);
          assert At(w2, id, AfterWrite(me.pc)) == Acts(w, m, id);
        } else if me.pc.Marking? {
          MarkKeeps(w, w', id);
        } else if me.pc.Preparing? {
          PrepareKeeps(w, w', id);
        } else {
          ClearKeeps(w, w', id);
        }
      }
    }
  }

  lemma ArmName(w: World, pc: Pc)
    requires pc.Marking? && pc.mark == Arm
    ensures WriteOf(w.issued, pc) == (DeliveryState, Some(PhaseText(Sending)))
  {
  }

  lemma StoppedSound(w: World, id: Id)
    ensures forall latest :: Sound(w, id, Stopped, latest)
  {
  }

  // ----- The whole protocol

  lemma ActsKeep(w: World, m: Move, id: Id)
    requires WorldValid(w) && Shaped(w.store) && id in w.workers
    requires !m.Elsewhere? && !m.Claims? && !m.Delivers? && !m.Acknowledges?
    ensures WorldValid(Acts(w, m, id))
  {
    hide WorldValid;
    match m {
      case Beats(_, _, _) => BeatsKeeps(w, m, id);
      case Resumes(_) => ResumesKeeps(w, m, id);
      case Summarizes(_, _, _) => SummarizesKeeps(w, m, id);
      case ReadsRevision(_) => ReadsRevisionKeeps(w, m, id);
      case WritesCursor(_, _) => WritesCursorKeeps(w, m, id);
      case Applies(_, _) => AppliesKeeps(w, m, id);
      case ReadsBack(_, _) => ReadsBackKeeps(w, m, id);
      case RequestsAck(_) => RequestsAckKeeps(w, m, id);
      case HearsAck(_) => HearsAckKeeps(w, m, id);
      case Previews(_, _) => BridgeKeeps(w, m, id);
      case Replies(_, _) => BridgeKeeps(w, m, id);
      case _ => QuietKeeps(w, m, id);
    }
  }

  /** The invariant of the protocol is inductive. */
  lemma DoKeeps(cal: Calendar, w: World, m: Move)
    requires WorldValid(w)
    ensures Shaped(w.store) && WorldValid(Do(cal, w, m))
  {
    hide Valid, FeedSound, CommitsSound, RecordsSound, WorkersSound, Step, Acts, ClaimRun;
    ShapedOf(w.store);
    match m {
      case Elsewhere(a) => if !a.DoUpdateCursor? { ElsewhereKeeps(cal, w, a); }
      case Claims(owner, seconds, now, pick, due) => ClaimsKeeps(cal, w, owner, seconds, now, pick, due);
      case Delivers(c) => if c < |w.commits| { DeliversKeeps(w, c); }
      case Acknowledges(d) =>
        if d in w.ackRequests && d < |w.issued| && w.issued[d].through > w.acked { AcknowledgesKeeps(w, d); }
      case _ => if m.id in w.workers { ActsKeep(w, m, m.id); }
    }
  }
}

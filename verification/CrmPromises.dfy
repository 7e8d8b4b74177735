/** What the digest delivery promises over every interleaving of workers, crashes, lost replies, lost
leases and anything else the store does. */
module CrmPromises {
  import opened Options
  import opened Tables
  import opened Steps
  import opened Invariants
  import opened Histories
  import opened CrmDigest
  import opened CrmInvariant
  import opened CrmSafety
  import opened CrmMoves

  lemma ValidStore(w: World)
    requires WorldValid(w)
    ensures Valid(w.store) && Shaped(w.store)
  {
    hide Granted, Agreed, Alerted, KeysUnique, FeedSound, CommitsSound, RecordsSound, WorkersSound;
  }

  /** The consumer was registered at event `start`; nothing has happened yet. */
  function Genesis(start: nat): World {
    World(EMPTY, map[], start, [], {}, [], [], {}, start)
  }

  lemma GenesisValid(start: nat)
    ensures WorldValid(Genesis(start))
  {
    EmptyIsValid();
  }

  /** What a sequence of moves leads to. */
  ghost function Story(cal: Calendar, w: World, moves: seq<Move>): World
    decreases |moves|
  {
    if moves == [] || !Shaped(w.store) then w else Story(cal, Do(cal, w, moves[0]), moves[1..])
  }

  lemma {:induction false} StoryValid(cal: Calendar, w: World, moves: seq<Move>)
    requires WorldValid(w)
    ensures WorldValid(Story(cal, w, moves))
    decreases |moves|
  {
    hide WorldValid, Do;
    if moves != [] && Shaped(w.store) {
      DoKeeps(cal, w, moves[0]);
      StoryValid(cal, Do(cal, w, moves[0]), moves[1..]);
    }
  }

  lemma {:induction false} StorySplits(cal: Calendar, w: World, a: seq<Move>, b: seq<Move>)
    requires WorldValid(w)
    ensures Story(cal, w, a + b) == Story(cal, Story(cal, w, a), b)
    decreases |a|
  {
    hide WorldValid, Do;
    if a == [] {
      assert a + b == b;
    } else {
      DoKeeps(cal, w, a[0]);
      assert (a + b)[0] == a[0] && (a + b)[1..] == a[1..] + b;
      StorySplits(cal, Do(cal, w, a[0]), a[1..], b);
    }
  }

  ghost function Told(cal: Calendar, start: nat, moves: seq<Move>): World {
    Story(cal, Genesis(start), moves)
  }

  /** Every state that moves lead to from the start satisfies the invariant. */
  lemma ToldValid(cal: Calendar, start: nat, moves: seq<Move>)
    ensures WorldValid(Told(cal, start, moves))
  {
    GenesisValid(start);
    StoryValid(cal, Genesis(start), moves);
  }

  /** The send of commit `c` may have delivered, and its digest covers event `e`. */
  predicate MayHaveSent(w: World, c: int, j: nat, e: nat) {
    && 0 <= c < |w.commits|
    && w.commits[c].job == j
    && w.commits[c].fate == Launched
    && w.commits[c].digest < |w.issued|
    && w.issued[w.commits[c].digest].from < e <= w.issued[w.commits[c].digest].through
  }

  /** No event is covered by two sends of a job that may have delivered. */
  lemma EventsSentOnce(cal: Calendar, start: nat, moves: seq<Move>, j: nat, e: nat, a: int, b: int)
    requires MayHaveSent(Told(cal, start, moves), a, j, e) && MayHaveSent(Told(cal, start, moves), b, j, e)
    ensures a == b
  {
    hide Valid, FeedSound, RecordsSound, WorkersSound, CommitSound, Known;
    ToldValid(cal, start, moves);
    ChainedApart(Told(cal, start, moves), a, b);
  }

  lemma ChainedApart(w: World, a: int, b: int)
    requires Chained(w) && 0 <= a < |w.commits| && 0 <= b < |w.commits| && w.commits[a].job == w.commits[b].job
    requires Live(w.commits[a]) && Live(w.commits[b]) && w.commits[a].digest < |w.issued| && w.commits[b].digest < |w.issued|
    ensures a < b ==> w.issued[w.commits[a].digest].through <= w.issued[w.commits[b].digest].from
    ensures b < a ==> w.issued[w.commits[b].digest].through <= w.issued[w.commits[a].digest].from
  {
  }

  /** A crash never leaves a torn record: whenever a state is set, all pending cursors are of one
      digest, and a state past `sending` comes with a message that carries that digest. */
  lemma RecordsNeverTorn(cal: Calendar, start: nat, moves: seq<Move>, j: nat)
    ensures var w := Told(cal, start, moves);
            j < |w.store.jobs| && Value(w.store, j, DeliveryState).Some? ==>
              && PhaseOf(w.store, j).Some?
              && (exists d :: Whole(w, j, d) && (PhaseOf(w.store, j).value in {SentUnverified, DeliveredUnacked} ==> MessageNoted(w, j, d)))
  {
    hide Valid, FeedSound, CommitsSound, WorkersSound;
    ToldValid(cal, start, moves);
    var w := Told(cal, start, moves);
    if j < |w.store.jobs| && Value(w.store, j, DeliveryState).Some? {
      assert RecordSound(w, j);
      assert Whole(w, j, Recorded(w.store, j).value);
    }
  }

  /** The move archives no job. */
  predicate NoArchive(m: Move) {
    m.Elsewhere? ==> !(m.a.DoCommand? && m.a.request.op.Archive?)
  }

  // ----- Acknowledgements

  /** Every message was sent by a send that may have delivered. */
  ghost predicate MessagesSent(w: World) {
    forall m | 0 <= m < |w.messages| :: Launches(w, w.messages[m])
  }

  ghost predicate Launches(w: World, digest: nat) {
    exists c :: 0 <= c < |w.commits| && w.commits[c].digest == digest && w.commits[c].fate == Launched
  }

  lemma LaunchesStay(w: World, w': World, digest: nat)
    requires Launches(w, digest) && |w.commits| <= |w'.commits|
    requires forall c | 0 <= c < |w.commits| && w.commits[c].fate == Launched :: w'.commits[c] == w.commits[c]
    ensures Launches(w', digest)
  {
    var c :| 0 <= c < |w.commits| && w.commits[c].digest == digest && w.commits[c].fate == Launched;
    assert w'.commits[c] == w.commits[c];
  }

  /** A launched send stays launched; a move delivers at most the message of a launched send. */
  lemma DoLaunches(cal: Calendar, w: World, m: Move)
    requires WorldValid(w) && Shaped(w.store)
    ensures var w' := Do(cal, w, m);
            && |w.commits| <= |w'.commits|
            && (forall c | 0 <= c < |w.commits| && w.commits[c].fate == Launched :: w'.commits[c] == w.commits[c])
            && (w'.messages == w.messages
                || (exists c :: 0 <= c < |w.commits| && w.commits[c].fate == Launched && w'.messages == w.messages + [w.commits[c].digest]))
  {
    hide WorldValid, Step, ClaimRun, Acts, StoreKept, WorkerMoves, MayDeliver;
    if !m.Elsewhere? && !m.Claims? && !m.Delivers? && !m.Acknowledges? && m.id in w.workers {
      ActsShape(w, m, m.id);
      ActsAlone(w, m, m.id);
    }
  }

  lemma DoMessages(cal: Calendar, w: World, m: Move)
    requires WorldValid(w) && MessagesSent(w)
    ensures Shaped(w.store) && MessagesSent(Do(cal, w, m))
  {
    hide Valid, FeedSound, CommitsSound, RecordsSound, WorkersSound, Do, Launches;
    ShapedOf(w.store);
    var w' := Do(cal, w, m);
    DoLaunches(cal, w, m);
    forall k | 0 <= k < |w'.messages| ensures Launches(w', w'.messages[k]) {
      if k < |w.messages| {
        LaunchesStay(w, w', w.messages[k]);
      } else {
        var c :| 0 <= c < |w.commits| && w.commits[c].fate == Launched && w'.messages == w.messages + [w.commits[c].digest];
        LaunchedLaunches(w, c);
        LaunchesStay(w, w', w.commits[c].digest);
      }
    }
  }

  lemma LaunchedLaunches(w: World, c: nat)
    requires c < |w.commits| && w.commits[c].fate == Launched
    ensures Launches(w, w.commits[c].digest)
  {
  }

  lemma {:induction false} StoryMessages(cal: Calendar, w: World, moves: seq<Move>)
    requires WorldValid(w) && MessagesSent(w)
    ensures MessagesSent(Story(cal, w, moves))
    decreases |moves|
  {
    hide Valid, FeedSound, CommitsSound, RecordsSound, WorkersSound, Do, MessagesSent;
    if moves != [] {
      DoKeeps(cal, w, moves[0]);
      DoMessages(cal, w, moves[0]);
      StoryMessages(cal, Do(cal, w, moves[0]), moves[1..]);
    }
  }

  /** Event `e` was reported: some digest covers it, its message was delivered by a send and read back. */
  ghost predicate Reported(w: World, e: nat) {
    exists d :: d in w.verified && d < |w.issued| && w.issued[d].from < e <= w.issued[d].through && d in w.messages && Launches(w, d)
  }

  /** The acknowledgement never passes an event that was not reported. */
  lemma AckedWereReported(cal: Calendar, start: nat, moves: seq<Move>, e: nat)
    requires start < e <= Told(cal, start, moves).acked
    ensures Reported(Told(cal, start, moves), e)
  {
    hide Valid, CommitsSound, RecordsSound, WorkersSound, Do;
    GenesisValid(start);
    ToldValid(cal, start, moves);
    StoryMessages(cal, Genesis(start), moves);
    var w := Told(cal, start, moves);
    StoryStart(cal, Genesis(start), moves);
    assert CoversVerified(w, e);
    var d :| d in w.verified && d < |w.issued| && w.issued[d].from < e <= w.issued[d].through;
    var m :| 0 <= m < |w.messages| && w.messages[m] == d;
    assert Launches(w, w.messages[m]);
  }

  lemma {:induction false} StoryStart(cal: Calendar, w: World, moves: seq<Move>)
    requires WorldValid(w)
    ensures Story(cal, w, moves).start == w.start
    decreases |moves|
  {
    hide WorldValid, Step, ClaimRun, Resume, WriteOf, AfterWrite, UpdateCursor, Heartbeat;
    if moves != [] {
      DoKeeps(cal, w, moves[0]);
      StoryStart(cal, Do(cal, w, moves[0]), moves[1..]);
    }
  }

  // ----- Stale workers

  /** A new commit is made by the newest claim of its job. */
  lemma DoArms(cal: Calendar, w: World, m: Move)
    requires WorldValid(w) && Shaped(w.store)
    ensures var w' := Do(cal, w, m);
            && |w.commits| <= |w'.commits|
            && (forall c | 0 <= c < |w.commits| :: w'.commits[c].job == w.commits[c].job && w'.commits[c].token == w.commits[c].token)
            && (forall c | |w.commits| <= c < |w'.commits| && w'.commits[c].job < |w.store.jobs| ::
                  w'.commits[c].token == w.store.runtimes[w'.commits[c].job].fence)
  {
    hide WorldValid, Step, ClaimRun, Acts, StoreKept, WorkerMoves, MayDeliver;
    if !m.Elsewhere? && !m.Claims? && !m.Delivers? && !m.Acknowledges? && m.id in w.workers { ActsShape(w, m, m.id); }
  }

  /** Tokens never fall. */
  lemma DoAdvances(cal: Calendar, w: World, m: Move)
    requires WorldValid(w) && Shaped(w.store) && Shaped(Do(cal, w, m).store)
    ensures Advances(w.store, Do(cal, w, m).store)
  {
    hide Valid, FeedSound, CommitsSound, RecordsSound, WorkersSound, Step, Acts, ClaimRun, MayDeliver, PcMoves;
    AdvancesReflexive(w.store);
    match m {
      case Elsewhere(a) => StepAdvances(cal, w.store, a);
      case Claims(owner, seconds, now, pick, due) =>
        StepAdvances(cal, w.store, DoClaimRun(owner, seconds, now, pick, due));
        ClaimIsStep(cal, w.store, owner, seconds, now, pick, due);
      case Delivers(_) =>
      case Acknowledges(_) =>
      case _ => if m.id in w.workers { ActsShape(w, m, m.id); KeptAdvances(w.store, Acts(w, m, m.id).store, m.id); }
    }
  }

  lemma ClaimIsStep(cal: Calendar, s: State, owner: Owner, seconds: int, now: Time, pick: Option<nat>, due: seq<nat>)
    requires Shaped(s)
    ensures Step(cal, s, DoClaimRun(owner, seconds, now, pick, due)) == ClaimRun(cal, s, owner, seconds, now, pick, due).0
  {
    hide ClaimRun;
  }

  lemma KeptAdvances(s: State, t: State, id: Id)
    requires Shaped(s) && Shaped(t) && StoreKept(s, t, id)
    ensures Advances(s, t)
  {
  }

  /** The next write of a worker whose job has a newer claim changes nothing and stops it. */
  lemma StaleWriteStops(w: World, id: Id, now: Time)
    requires Shaped(w.store) && id in w.workers && id.0 < |w.store.jobs| && id.1 < w.store.runtimes[id.0].fence
    ensures var w' := Acts(w, WritesCursor(id, now), id);
            && w'.store == w.store && w'.commits == w.commits
            && (Writes(w.workers[id].pc) && w.workers[id].pc.revision.Some? ==> w'.workers[id].pc == Stopped)
  {
    hide WriteOf, AfterWrite;
  }

  /** Once a newer claim of a job is granted, no worker of an older one ever arms another send, whatever
      anyone does from then on. */
  lemma {:induction false} StaleWorkerHarmless(cal: Calendar, w: World, moves: seq<Move>, j: nat, token: nat, c: nat)
    requires WorldValid(w) && Shaped(w.store) && j < |w.store.jobs| && token < w.store.runtimes[j].fence
    requires |w.commits| <= c < |Story(cal, w, moves).commits|
    ensures !CommitOf(Story(cal, w, moves), (j, token), c)
    decreases |moves|
  {
    hide WorldValid, Do;
    if moves != [] {
      var u := Do(cal, w, moves[0]);
      DoKeeps(cal, w, moves[0]);
      ValidStore(u);
      DoAdvances(cal, w, moves[0]);
      assert RowAdvances(w.store, u.store, j);
      DoArms(cal, w, moves[0]);
      if c < |u.commits| {
        assert !CommitOf(u, (j, token), c);
        CommitsNamed(cal, u, moves[1..], c);
      } else {
        StaleWorkerHarmless(cal, u, moves[1..], j, token, c);
      }
    }
  }

  /** A commit keeps its claim. */
  lemma {:induction false} CommitsNamed(cal: Calendar, w: World, moves: seq<Move>, c: nat)
    requires WorldValid(w) && c < |w.commits|
    ensures var u := Story(cal, w, moves);
            c < |u.commits| && u.commits[c].job == w.commits[c].job && u.commits[c].token == w.commits[c].token
    decreases |moves|
  {
    hide WorldValid, Do;
    if moves != [] && Shaped(w.store) {
      DoKeeps(cal, w, moves[0]);
      DoArms(cal, w, moves[0]);
      CommitsNamed(cal, Do(cal, w, moves[0]), moves[1..], c);
    }
  }
}

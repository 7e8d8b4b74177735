/** How two jobs come to send the same event: the first is archived while its send is out, and the
second starts from the acknowledgement, which the first has not moved. */
module CrmResend {
  import opened Options
  import opened Tables
  import opened Steps
  import opened Invariants
  import opened Histories
  import opened CrmDigest
  import opened CrmInvariant
  import opened CrmSafety
  import opened CrmPromises
  import opened CrmProgress

  predicate Unused(s: State, key: string) {
    !HasCommand(s.commands, System, key)
  }

  /** The command was new, and only it was recorded. */
  predicate Records(s: State, t: State, key: string) {
    && |t.commands| == |s.commands| + 1 && t.commands[..|s.commands|] == s.commands
    && Named(t.commands[|s.commands|], System, key)
  }

  lemma UnusedAfter(s: State, t: State, key: string, other: string)
    requires Records(s, t, key) && Unused(s, other) && other != key
    ensures Unused(t, other)
  {
  }

  /** Nothing is held, no digest job is listed, and at `now` no run has been waiting for a claim. */
  predicate Vacant(s: State, now: Time)
    requires Shaped(s)
  {
    !s.hold.enabled && !LiveTemplate(s.jobs, CrmDigest) && NoneWaits(s, now)
  }

  predicate NoneWaits(s: State, now: Time)
    requires Shaped(s)
  {
    forall q | 0 <= q < |s.runs| && s.runs[q].status == Queued && !s.jobs[s.runs[q].job].archived :: now <= s.runs[q].requestedAt
  }

  lemma Creates(cal: Calendar, s: State, key: string, now: Time)
    requires Valid(s) && Shaped(s) && Vacant(s, now) && Unused(s, key)
    ensures var t := Step(cal, s, Asks(key, CreateFromTemplate(CrmDigest, HOURLY), 0, now));
            && t == s.(jobs := s.jobs + [Job(CrmDigest, false, HOURLY, 1, now, false)],
                       runtimes := s.runtimes + [Runtime(Disabled, None, None, 0, None, None, 1)],
                       commands := t.commands)
            && Records(s, t, key)
  {
  }

  /** The newest job, with nothing held. */
  predicate Newest(s: State, j: nat, job: Job, rt: Runtime) {
    && |s.jobs| == |s.runtimes| == j + 1 && s.jobs[j] == job && s.runtimes[j] == rt
    && !s.hold.enabled
    && job.template == CrmDigest && !job.archived
  }

  lemma Enables(cal: Calendar, s: State, key: string, j: nat, now: Time)
    requires Valid(s) && Shaped(s) && Unused(s, key)
    requires Newest(s, j, Job(CrmDigest, false, HOURLY, 1, now, false), Runtime(Disabled, None, None, 0, None, None, 1))
    ensures var t := Step(cal, s, Asks(key, SetEnabled(j, true), 1, now));
            && t == s.(jobs := s.jobs[j := Job(CrmDigest, true, HOURLY, 2, now, false)], commands := t.commands)
            && Records(s, t, key)
  {
  }

  lemma RunsNow(cal: Calendar, s: State, key: string, j: nat, now: Time, rt: Runtime)
    requires Valid(s) && Shaped(s) && Unused(s, key)
    requires Newest(s, j, Job(CrmDigest, true, HOURLY, 2, now, false), rt)
    requires forall r | 0 <= r < |s.runs| :: s.runs[r].job < j
    ensures var t := Step(cal, s, Asks(key, RunNow(j), 2, now));
            && t == s.(runs := s.runs + [Run(j, Manual(|s.commands|), Queued, now, None, 0, None)],
                       runtimes := s.runtimes[j := rt.(actual := Waiting)],
                       commands := t.commands)
            && Records(s, t, key)
  {
    assert FirstCovering(s, j, now, None);
  }

  // ----- The claim of the only queued run

  /** The sweep leaves queued runs and unleased jobs alone. */
  lemma {:induction false} SweepSpares(s: State, now: Time, i: nat)
    requires Shaped(s) && i <= |s.jobs|
    ensures var t := Sweep(s, now, i);
            && t.jobs == s.jobs && |t.runs| == |s.runs|
            && (forall r | 0 <= r < |s.runs| :: t.runs[r].job == s.runs[r].job && (t.runs[r] == s.runs[r] || (t.runs[r].status != Queued && s.runs[r].status != Queued)))
            && (forall k | 0 <= k < |s.jobs| && s.runtimes[k].lease.None? :: t.runtimes[k] == s.runtimes[k])
            && ((forall k | 0 <= k < |s.jobs| && s.runtimes[k].lease.Some? :: k < i) ==> t == s)
    decreases |s.jobs| - i
  {
    if i < |s.jobs| { SweepSpares(if Expired(s.runtimes[i], now) then ExpireClaim(s, i, now) else s, now, i + 1); }
  }

  /** The run of the newest job is the first one that can be claimed at `now`. */
  predicate OnlyQueued(s: State, j: nat, job: Job, rt: Runtime, r: nat, now: Time)
    requires Shaped(s)
  {
    && Newest(s, j, job, rt)
    && job.desiredOn && rt.lease.None?
    && r < |s.runs| && s.runs[r].job == j && s.runs[r].status == Queued && s.runs[r].requestedAt == now
    && (forall q | 0 <= q < |s.runs| && q != r :: s.runs[q].job < j)
    && NoneWaits(s, now)
  }

  lemma SweptClaimable(s: State, j: nat, job: Job, rt: Runtime, r: nat, now: Time)
    requires Shaped(s) && OnlyQueued(s, j, job, rt, r, now)
    ensures var t := Sweep(s, now, 0);
            FirstClaimable(t, now, Some(r)) && t.runs[r] == s.runs[r] && t.runtimes[j] == rt
  {
    hide Sweep;
    SweepSpares(s, now, 0);
    var t := Sweep(s, now, 0);
    forall q | 0 <= q < |t.runs| && Claimable(t, now, q) ensures t.runs[r].requestedAt <= t.runs[q].requestedAt {
      assert t.runs[q] == s.runs[q];
    }
  }

  lemma Grants(cal: Calendar, s: State, j: nat, job: Job, rt: Runtime, r: nat, now: Time)
    requires Valid(s) && Shaped(s) && OnlyQueued(s, j, job, rt, r, now)
    ensures var (t, claim) := ClaimRun(cal, s, 0, BEAT, now, Some(r), []);
            && claim == Some(Claim(r, j, 0, job.revision, rt.fence + 1))
            && Shaped(t) && t.jobs == s.jobs && t.cursors == s.cursors && t.hold == s.hold && t.commands == s.commands
            && RunClaimCurrent(t, claim.value, now) && t.runtimes[j].lease.value.until == now + BEAT
            && ((forall k | 0 <= k < |s.jobs| :: s.runtimes[k].lease.None?) ==> t.outbox == s.outbox)
  {
    hide Valid, Sweep, FirstClaimable, Newest;
    SweptClaimable(s, j, job, rt, r, now);
    SweepSpares(s, now, 0);
    SweepAdvances(s, now, 0);
    NewestRow(s, j, job, rt);
  }

  lemma NewestRow(s: State, j: nat, job: Job, rt: Runtime)
    requires Newest(s, j, job, rt)
    ensures j < |s.jobs| == |s.runtimes| && s.jobs[j] == job && s.runtimes[j] == rt && !s.hold.enabled && !job.archived
  {
  }

  // ----- A new job and its first claim

  lemma OneCommand(cal: Calendar, w: World, a: Action)
    requires WorldValid(w) && Shaped(w.store) && a.DoCommand?
    ensures Story(cal, w, [Elsewhere(a)]) == w.(store := Step(cal, w.store, a))
    ensures WorldValid(w.(store := Step(cal, w.store, a)))
  {
    hide WorldValid, Step;
    DoKeeps(cal, w, Elsewhere(a));
    var u := Do(cal, w, Elsewhere(a));
    assert Story(cal, u, []) == u;
    assert [Elsewhere(a)][1..] == [];
  }

  /** An operator makes a new digest job, enables it and asks for a run. */
  lemma Requests(cal: Calendar, w: World, keys: seq<string>, now: Time) returns (moves: seq<Move>, r: nat)
    requires WorldValid(w) && Shaped(w.store) && Vacant(w.store, now)
    requires |keys| == 3 && keys[0] != keys[1] && keys[0] != keys[2] && keys[1] != keys[2]
    requires forall i | 0 <= i < 3 :: Unused(w.store, keys[i])
    ensures var u := Story(cal, w, moves);
            var j := |w.store.jobs|;
            && Shaped(u.store) && u == w.(store := u.store) && u.store.cursors == w.store.cursors && u.store.outbox == w.store.outbox
            && OnlyQueued(u.store, j, Job(CrmDigest, true, HOURLY, 2, now, false), Runtime(Waiting, None, None, 0, None, None, 1), r, now)
            && u.store.jobs == w.store.jobs + [Job(CrmDigest, true, HOURLY, 2, now, false)]
            && (forall k | 0 <= k < j :: u.store.runtimes[k] == w.store.runtimes[k])
            && forall other | other !in keys && Unused(w.store, other) :: Unused(u.store, other)
    ensures forall m | m in moves :: NoArchive(m)
  {
    hide WorldValid, Step, Valid, HasCommand;
    var j := |w.store.jobs|;
    var a1 := Asks(keys[0], CreateFromTemplate(CrmDigest, HOURLY), 0, now);
    ValidStore(w);
    Creates(cal, w.store, keys[0], now);
    OneCommand(cal, w, a1);
    var w1 := w.(store := Step(cal, w.store, a1));
    UnusedAfter(w.store, w1.store, keys[0], keys[1]);
    UnusedAfter(w.store, w1.store, keys[0], keys[2]);
    var a2 := Asks(keys[1], SetEnabled(j, true), 1, now);
    ValidStore(w1);
    Enables(cal, w1.store, keys[1], j, now);
    OneCommand(cal, w1, a2);
    var w2 := w1.(store := Step(cal, w1.store, a2));
    UnusedAfter(w1.store, w2.store, keys[1], keys[2]);
    var a3 := Asks(keys[2], RunNow(j), 2, now);
    ValidStore(w2);
    RunsNow(cal, w2.store, keys[2], j, now, Runtime(Disabled, None, None, 0, None, None, 1));
    OneCommand(cal, w2, a3);
    var w3 := w2.(store := Step(cal, w2.store, a3));
    ValidStore(w3);
    moves := [Elsewhere(a1)] + ([Elsewhere(a2)] + [Elsewhere(a3)]);
    StorySplits(cal, w, [Elsewhere(a1)], [Elsewhere(a2)] + [Elsewhere(a3)]);
    StorySplits(cal, w1, [Elsewhere(a2)], [Elsewhere(a3)]);
    r := |w2.store.runs|;
    forall other | other !in keys && Unused(w.store, other) ensures Unused(w3.store, other) {
      UnusedAfter(w.store, w1.store, keys[0], other);
      UnusedAfter(w1.store, w2.store, keys[1], other);
      UnusedAfter(w2.store, w3.store, keys[2], other);
    }
  }

  /** A world in which the worker `id` of the newest job has just been claimed at `now`. */
  ghost predicate Claimed(w: World, u: World, id: Id, now: Time)
    requires Shaped(w.store) && Shaped(u.store)
  {
    && Undisturbed(u, id, now) && OnPath(u, id, u.workers[id].pc)
    && u == w.(store := u.store, workers := u.workers)
    && id == (|w.store.jobs|, 1)
    && u.store.jobs == w.store.jobs + [Job(CrmDigest, true, HOURLY, 2, now, false)]
    && !u.store.hold.enabled
    && ((forall k | 0 <= k < |w.store.jobs| :: w.store.runtimes[k].lease.None?) ==> u.store.outbox == w.store.outbox)
  }

  lemma NoRecordYet(w: World, j: nat, name: CursorName)
    requires WorldValid(w) && j >= |w.store.jobs|
    ensures Value(w.store, j, name).None?
  {
    hide Valid, FeedSound, CommitsSound, WorkersSound, RecordSound;
  }

  lemma OneMove(cal: Calendar, w: World, m: Move)
    requires WorldValid(w)
    ensures Shaped(w.store) && Story(cal, w, [m]) == Do(cal, w, m) && WorldValid(Do(cal, w, m))
  {
    hide WorldValid, Do;
    DoKeeps(cal, w, m);
    assert Story(cal, Do(cal, w, m), []) == Do(cal, w, m);
    assert [m][1..] == [];
  }

  lemma Starts(cal: Calendar, w: World, keys: seq<string>, now: Time) returns (moves: seq<Move>)
    requires WorldValid(w) && Shaped(w.store) && Vacant(w.store, now)
    requires |keys| == 3 && keys[0] != keys[1] && keys[0] != keys[2] && keys[1] != keys[2]
    requires forall i | 0 <= i < 3 :: Unused(w.store, keys[i])
    ensures var u := Story(cal, w, moves);
            && Shaped(u.store) && Claimed(w, u, (|w.store.jobs|, 1), now)
            && forall other | other !in keys && Unused(w.store, other) :: Unused(u.store, other)
    ensures forall m | m in moves :: NoArchive(m)
  {
    hide WorldValid, Valid, RunClaimCurrent, ClaimRun, OnlyQueued;
    var j := |w.store.jobs|;
    var before, r := Requests(cal, w, keys, now);
    var v := Story(cal, w, before);
    StoryValid(cal, w, before);
    var job, rt := Job(CrmDigest, true, HOURLY, 2, now, false), Runtime(Waiting, None, None, 0, None, None, 1);
    ValidStore(v);
    Grants(cal, v.store, j, job, rt, r, now);
    var m := Claims(0, BEAT, now, Some(r), []);
    OneMove(cal, v, m);
    moves := before + [m];
    StorySplits(cal, w, before, [m]);
    var u := Do(cal, v, m);
    NoRecordYet(w, j, DeliveryState);
    OnlyQueuedRow(v.store, j, job, rt, r, now);
    NoLeases(w.store, v.store, j);
    assert u.workers[(j, 1)] == Worker(0, r, 2, Beating(Registering));
  }

  lemma NoLeases(s: State, t: State, j: nat)
    requires Shaped(s) && Shaped(t) && |s.jobs| == j && |t.jobs| == j + 1 && t.runtimes[j].lease.None?
    requires forall k | 0 <= k < j :: t.runtimes[k] == s.runtimes[k]
    ensures (forall k | 0 <= k < j :: s.runtimes[k].lease.None?) <==> forall k | 0 <= k < |t.jobs| :: t.runtimes[k].lease.None?
  {
    if forall k | 0 <= k < |t.jobs| :: t.runtimes[k].lease.None? {
      forall k | 0 <= k < j ensures s.runtimes[k].lease.None? { assert t.runtimes[k].lease.None?; }
    }
  }

  lemma OnlyQueuedRow(t: State, j: nat, job: Job, rt: Runtime, r: nat, now: Time)
    requires Shaped(t) && OnlyQueued(t, j, job, rt, r, now)
    ensures j < |t.jobs| && t.jobs[j] == job && |t.jobs| == j + 1 && t.runtimes[j].lease.None? && !t.hold.enabled && job.template == CrmDigest
  {
  }

  // ----- Archived while the send is out

  lemma Disables(cal: Calendar, s: State, key: string, j: nat, now: Time)
    requires Valid(s) && Shaped(s) && Unused(s, key) && !s.hold.enabled
    requires j < |s.jobs| && s.jobs[j].template == CrmDigest && !s.jobs[j].archived && s.jobs[j].desiredOn && s.jobs[j].revision == 2
    ensures var t := Step(cal, s, Asks(key, SetEnabled(j, false), 2, now));
            && t.jobs == s.jobs[j := s.jobs[j].(desiredOn := false, revision := 3, updatedAt := now)]
            && t.outbox == s.outbox && t.hold == s.hold && t.cursors == s.cursors
            && |t.runtimes| == |s.runtimes| && t.runtimes[j].lease == s.runtimes[j].lease
            && Records(s, t, key)
  {
  }

  lemma Archives(cal: Calendar, s: State, key: string, j: nat, now: Time)
    requires Valid(s) && Shaped(s) && Unused(s, key) && !s.hold.enabled && s.outbox == []
    requires j < |s.jobs| && s.jobs[j].template == CrmDigest && !s.jobs[j].archived && !s.jobs[j].desiredOn && s.jobs[j].revision == 3
    requires LeaseFree(s.runtimes[j].lease, now)
    ensures var t := Step(cal, s, Asks(key, Archive(j), 3, now));
            && t.jobs == s.jobs[j := s.jobs[j].(archived := true, revision := 4, updatedAt := now)]
            && t.outbox == [] && t.hold == s.hold && t.cursors == s.cursors
            && Records(s, t, key)
  {
    assert DropAlerts(s.outbox, j, now) == [];
    assert !AwaitsDelivery([], j);
  }

  /** The operator disables and archives the only job once its lease has run out. */
  lemma Abandons(cal: Calendar, w: World, keys: seq<string>, now: Time) returns (moves: seq<Move>)
    requires WorldValid(w) && Shaped(w.store) && |keys| == 2 && keys[0] != keys[1]
    requires forall i | 0 <= i < 2 :: Unused(w.store, keys[i])
    requires |w.store.jobs| == 1 && w.store.jobs[0].template == CrmDigest && !w.store.jobs[0].archived && w.store.jobs[0].desiredOn
    requires w.store.jobs[0].revision == 2 && !w.store.hold.enabled && w.store.outbox == []
    requires LeaseFree(w.store.runtimes[0].lease, now)
    ensures var u := Story(cal, w, moves);
            && Shaped(u.store) && u == w.(store := u.store) && Vacant(u.store, now) && |u.store.jobs| == 1
            && forall other | other !in keys && Unused(w.store, other) :: Unused(u.store, other)
  {
    hide WorldValid, Step, Valid, HasCommand;
    var a1 := Asks(keys[0], SetEnabled(0, false), 2, now);
    ValidStore(w);
    Disables(cal, w.store, keys[0], 0, now);
    OneCommand(cal, w, a1);
    var w1 := w.(store := Step(cal, w.store, a1));
    UnusedAfter(w.store, w1.store, keys[0], keys[1]);
    ValidStore(w1);
    var a2 := Asks(keys[1], Archive(0), 3, now);
    Archives(cal, w1.store, keys[1], 0, now);
    OneCommand(cal, w1, a2);
    var w2 := w1.(store := Step(cal, w1.store, a2));
    ValidStore(w2);
    moves := [Elsewhere(a1)] + [Elsewhere(a2)];
    StorySplits(cal, w, [Elsewhere(a1)], [Elsewhere(a2)]);
    forall other | other !in keys && Unused(w.store, other) ensures Unused(w2.store, other) {
      UnusedAfter(w.store, w1.store, keys[0], other);
      UnusedAfter(w1.store, w2.store, keys[1], other);
    }
  }

  // ----- Twice the same event

  const KEYS1 := ["create-1", "enable-1", "run-1"]
  const KEYS2 := ["disable-1", "archive-1"]
  const KEYS3 := ["create-2", "enable-2", "run-2"]

  /** From here a new job would send the events after the acknowledgement. */
  ghost predicate Primed(u: World, w: World, now: Time)
    requires Shaped(w.store) && Shaped(u.store)
  {
    && Vacant(u.store, now) && u.acked == w.acked && |u.store.jobs| == |w.store.jobs| + 1
    && (forall i | 0 <= i < 3 :: Unused(u.store, KEYS3[i]))
    && SentFor(u, |w.store.jobs|, w.acked)
  }

  /** A send of the job that may have delivered starts at event `e`. */
  ghost predicate SentFor(u: World, j: nat, e: nat) {
    exists c :: 0 <= c < |u.commits| && u.commits[c].job == j && u.commits[c].fate == Launched
                && u.commits[c].digest < |u.issued| && u.issued[u.commits[c].digest].from == e
  }

  lemma SentForGives(w: World, u: World, id: Id, now: Time)
    requires Shaped(u.store) && SentNext(w, u, id, now)
    ensures SentFor(u, id.0, w.acked)
  {
    hide Undisturbed;
  }

  lemma SameKeys(w: World, u: World, id: Id, other: string)
    requires Alone(w, u, id) && Unused(w.store, other)
    ensures Unused(u.store, other)
  {
  }

  /** The first job sends. */
  lemma FirstSend(cal: Calendar, start: nat) returns (moves: seq<Move>)
    ensures WorldValid(Genesis(start))
    ensures var u := Story(cal, Genesis(start), moves);
            && WorldValid(u) && Shaped(u.store) && u.acked == start && SentFor(u, 0, start)
            && u.store.jobs == [Job(CrmDigest, true, HOURLY, 2, 0, false)] && !u.store.hold.enabled && u.store.outbox == []
            && LeaseFree(u.store.runtimes[0].lease, 100)
            && forall k | k in KEYS2 + KEYS3 :: Unused(u.store, k)
  {
    hide WorldValid, Undisturbed, OnPath, Alone, NamesKept, Unused, SentNext, SentFor;
    GenesisValid(start);
    var w := Genesis(start);
    NoKeys(w.store);
    KeysApart();
    var a := Starts(cal, w, KEYS1, 0);
    var w1 := Story(cal, w, a);
    StoryValid(cal, w, a);
    StillThere(w1, (0, 1), 0);
    var b := WorkerSends(cal, w1, (0, 1), 0);
    var w2 := Story(cal, w1, b);
    StoryValid(cal, w1, b);
    AfterSend(w, w1, w2, (0, 1), 0);
    forall k | k in KEYS2 + KEYS3 ensures Unused(w2.store, k) { SameKeys(w1, w2, (0, 1), k); }
    StorySplits(cal, w, a, b);
    moves := a + b;
    SentForGives(w1, w2, (0, 1), 0);
  }

  /** The first job sends and is archived before anything is acknowledged. */
  lemma FirstJob(cal: Calendar, start: nat) returns (moves: seq<Move>)
    ensures WorldValid(Genesis(start))
    ensures var u := Story(cal, Genesis(start), moves);
            Shaped(u.store) && Primed(u, Genesis(start), 100)
  {
    hide WorldValid, Unused, SentFor, Vacant;
    var g := Genesis(start);
    KeysApart();
    var before := FirstSend(cal, start);
    var w := Story(cal, g, before);
    var c := Abandons(cal, w, KEYS2, 100);
    StorySplits(cal, g, before, c);
    moves := before + c;
    SentForSame(w, Story(cal, w, c), 0, start);
    assert forall i | 0 <= i < 3 :: KEYS3[i] in KEYS2 + KEYS3;
  }

  lemma SentForSame(w: World, u: World, j: nat, e: nat)
    requires SentFor(w, j, e) && u.commits == w.commits && u.issued == w.issued
    ensures SentFor(u, j, e)
  {
  }

  lemma NoKeys(s: State)
    requires s.commands == []
    ensures forall k :: Unused(s, k)
  {
  }

  lemma KeysApart()
    ensures KEYS1[0] != KEYS1[1] && KEYS1[0] != KEYS1[2] && KEYS1[1] != KEYS1[2]
    ensures KEYS2[0] != KEYS2[1]
    ensures KEYS3[0] != KEYS3[1] && KEYS3[0] != KEYS3[2] && KEYS3[1] != KEYS3[2]
    ensures forall k | k in KEYS2 + KEYS3 :: k !in KEYS1
    ensures forall k | k in KEYS3 :: k !in KEYS2
  {
  }

  lemma AfterSend(w: World, w1: World, w2: World, id: Id, now: Time)
    requires Shaped(w.store) && Shaped(w1.store) && Shaped(w2.store) && w.store == EMPTY && Claimed(w, w1, id, now)
    requires w1.store.outbox == [] && SentNext(w1, w2, id, now)
    ensures w2.store.jobs == [Job(CrmDigest, true, HOURLY, 2, now, false)] && !w2.store.hold.enabled && w2.store.outbox == []
    ensures Alone(w1, w2, id) && w2.acked == w.acked && w1.acked == w.acked
    ensures LeaseFree(w2.store.runtimes[0].lease, now + 100)
  {
    hide OnPath;
  }

  /** Whenever no digest job is listed and a send that may have delivered is not acknowledged, a new job
      can send the next event again. */
  lemma UnackedIsResent(cal: Calendar, w: World, keys: seq<string>, now: Time, j: nat, a: int) returns (moves: seq<Move>, b: int)
    requires WorldValid(w) && Shaped(w.store) && Vacant(w.store, now) && j < |w.store.jobs|
    requires |keys| == 3 && keys[0] != keys[1] && keys[0] != keys[2] && keys[1] != keys[2]
    requires forall i | 0 <= i < 3 :: Unused(w.store, keys[i])
    requires MayHaveSent(w, a, j, w.acked + 1)
    ensures a != b
    ensures var u := Story(cal, w, moves);
            MayHaveSent(u, a, j, w.acked + 1) && MayHaveSent(u, b, |w.store.jobs|, w.acked + 1)
    ensures forall m | m in moves :: NoArchive(m)
  {
    hide WorldValid, Undisturbed, OnPath, Alone, NamesKept, Unused, SentNext, MayHaveSent, SentFor;
    var id: Id := (|w.store.jobs|, 1);
    var starts := Starts(cal, w, keys, now);
    var w1 := Story(cal, w, starts);
    StoryValid(cal, w, starts);
    StillThere(w1, id, now);
    var sends := WorkerSends(cal, w1, id, now);
    var u := Story(cal, w1, sends);
    StoryValid(cal, w1, sends);
    moves := starts + sends;
    StorySplits(cal, w, starts, sends);
    SentNextAlone(w1, u, id, now);
    SendStays(w, w1, u, a, j, id);
    SentForGives(w1, u, id, now);
    b := Covers(u, id.0, w.acked);
    DifferentJobs(u, a, b, j, id.0, w.acked + 1);
  }

  lemma SendStays(w: World, w1: World, u: World, c: int, j: nat, id: Id)
    requires MayHaveSent(w, c, j, w.acked + 1) && w1.commits == w.commits && w1.issued == w.issued
    requires Alone(w1, u, id) && NamesKept(w1, u) && id.0 != j
    ensures MayHaveSent(u, c, j, w.acked + 1)
  {
    assert u.commits[c] == w.commits[c];
  }

  lemma DifferentJobs(u: World, a: int, b: int, i: nat, j: nat, e: nat)
    requires MayHaveSent(u, a, i, e) && MayHaveSent(u, b, j, e) && i != j
    ensures a != b
  {
  }

  /** With clocks that only go forward and never two claims of one job at a time, two jobs send the same
      event: the first is archived while its send is out, and nothing tells the second.  The second
      digest reaches one event further, so it is another digest, sent under another key. */
  lemma EventSentTwice(cal: Calendar, start: nat) returns (moves: seq<Move>, a: int, b: int)
    ensures a != b
    ensures MayHaveSent(Told(cal, start, moves), a, 0, start + 1) && MayHaveSent(Told(cal, start, moves), b, 1, start + 1)
  {
    hide WorldValid, Unused, SentFor, MayHaveSent;
    var before := FirstJob(cal, start);
    var g := Genesis(start);
    var w := Story(cal, g, before);
    StoryValid(cal, g, before);
    KeysApart();
    a := Covers(w, 0, start);
    var again;
    again, b := UnackedIsResent(cal, w, KEYS3, 100, 0, a);
    moves := before + again;
    StorySplits(cal, g, before, again);
  }

  lemma SentNextAlone(w: World, u: World, id: Id, now: Time)
    requires Shaped(u.store) && SentNext(w, u, id, now)
    ensures Alone(w, u, id) && NamesKept(w, u)
  {
    hide Undisturbed;
  }

  lemma Covers(u: World, j: nat, e: nat) returns (c: int)
    requires WorldValid(u) && SentFor(u, j, e)
    ensures MayHaveSent(u, c, j, e + 1)
  {
    hide Valid, CommitsSound, RecordsSound, WorkersSound;
    c :| 0 <= c < |u.commits| && u.commits[c].job == j && u.commits[c].fate == Launched
         && u.commits[c].digest < |u.issued| && u.issued[u.commits[c].digest].from == e;
  }
}

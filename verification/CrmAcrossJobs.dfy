/** Sends of different digest jobs.  An archive does not look at the delivery its job may have left
unfinished, so the promise that no event is sent twice carries over from one job to the next only when
each archive finds its job quiet: everything that may be delivered is acknowledged, and no worker is
about to send. */
module CrmAcrossJobs {
  import opened Options
  import opened Tables
  import opened Steps
  import opened Invariants
  import opened Preservation
  import opened Histories
  import opened Promises
  import opened CrmDigest
  import opened CrmInvariant
  import opened CrmSafety
  import opened CrmMoves
  import opened CrmPromises

  // ----- Jobs and leases in the store

  predicate Listing(s: State, j: int) {
    0 <= j < |s.jobs| && s.jobs[j].template == CrmDigest && !s.jobs[j].archived
  }

  predicate Retired(s: State, j: int) {
    0 <= j < |s.jobs| && s.jobs[j].template == CrmDigest && s.jobs[j].archived
  }

  /** At most one digest job is not archived. */
  ghost predicate OneListed(s: State) {
    forall i, k :: Listing(s, i) && Listing(s, k) ==> i == k
  }

  /** A lease that is new was claimed, for a job that is not archived. */
  ghost predicate LeaseGranted(s: State, t: State, a: Action)
    requires Shaped(s) && Shaped(t)
  {
    && |s.jobs| <= |t.jobs|
    && forall j | 0 <= j < |s.jobs| :: Stays(s.runtimes[j], t.runtimes[j]) || (!s.jobs[j].archived && a.DoClaimRun?)
  }

  /** The same token, and the same owner if there is a lease at all. */
  predicate Stays(a: Runtime, b: Runtime) {
    b.fence == a.fence && LeaseKept(a, b)
  }

  ghost predicate LeasesFollow(s: State, t: State)
    requires Shaped(s) && Shaped(t)
  {
    && |s.jobs| <= |t.jobs|
    && (forall j | 0 <= j < |s.jobs| :: Stays(s.runtimes[j], t.runtimes[j]))
    && (forall j | |s.jobs| <= j < |t.jobs| :: !t.jobs[j].archived)
  }

  /** Jobs as they were, one more that no other of its kind stands beside, or one archived by name. */
  ghost predicate JobsFollow(s: State, t: State, a: Action)
    requires Shaped(s) && Shaped(t)
  {
    && |s.jobs| <= |t.jobs|
    && (forall j | 0 <= j < |s.jobs| ::
          && t.jobs[j].template == s.jobs[j].template
          && (s.jobs[j].archived ==> t.jobs[j].archived)
          && (t.jobs[j].archived ==> s.jobs[j].archived || (a.DoCommand? && a.request.op == Archive(j))))
    && (t.jobs[|s.jobs|..] == []
        || (|t.jobs| == |s.jobs| + 1 && !LiveTemplate(s.jobs, t.jobs[|s.jobs|].template)))
  }

  lemma MutateFollows(s: State, request: Request, command: nat, c: Context, key: string)
    requires Shaped(s) && Mutate(s, request, command, c).Ok? && Shaped(Mutate(s, request, command, c).state)
    ensures var t := Mutate(s, request, command, c).state;
            LeasesFollow(s, t) && JobsFollow(s, t, DoCommand(key, request, c))
  {
    hide FirstCovering, LiveTemplate, Droppable;
    match request.op {
      case CreateFromTemplate(_, _) =>
      case SetGlobalHold(_, _, _) =>
      case SetEnabled(job, _) =>
      case SetSchedule(job, _) =>
      case RunNow(job) =>
      case TestNotification(job) =>
      case Archive(job) =>
    }
  }

  lemma {:induction false} SweepLeases(s: State, now: Time, j: nat)
    requires Shaped(s) && j <= |s.jobs|
    ensures LeasesFollow(s, Sweep(s, now, j))
    decreases |s.jobs| - j
  {
    if j < |s.jobs| { SweepLeases(if Expired(s.runtimes[j], now) then ExpireClaim(s, j, now) else s, now, j + 1); }
  }

  lemma {:induction false} DeferLeases(cal: Calendar, s: State, now: Time, due: seq<nat>)
    requires Shaped(s) && forall i | 0 <= i < |due| :: due[i] < |s.jobs|
    ensures LeasesFollow(s, Defer(cal, s, now, due).0)
    decreases |due|
  {
    if due != [] && !cal.active(now, s.jobs[due[0]].schedule) {
      var j := due[0];
      DeferLeases(cal, s.(runtimes := s.runtimes[j := s.runtimes[j].(nextRun := Some(cal.next(now, s.jobs[j].schedule)))]), now, due[1..]);
    }
  }

  lemma SelectLeases(cal: Calendar, s: State, now: Time, pick: Option<nat>, due: seq<nat>)
    requires Shaped(s)
    ensures SelectRun(cal, s, now, pick, due).0.jobs == s.jobs && LeasesFollow(s, SelectRun(cal, s, now, pick, due).0)
  {
    hide FirstClaimable;
    var s1 := Sweep(s, now, 0);
    SweepLeases(s, now, 0);
    if DueOrder(s1, now, due) { DeferLeases(cal, s1, now, due); }
  }

  lemma JobsStay(s: State, t: State, a: Action)
    requires Shaped(s) && Shaped(t) && t.jobs == s.jobs
    ensures JobsFollow(s, t, a)
  {
  }

  /** A claim leases only the job it is granted for, and that one is not archived. */
  lemma ClaimLeases(cal: Calendar, s: State, owner: Owner, seconds: int, now: Time, pick: Option<nat>, due: seq<nat>)
    requires Valid(s) && Shaped(s)
    ensures var (t, claim) := ClaimRun(cal, s, owner, seconds, now, pick, due);
            && Shaped(t) && t.jobs == s.jobs
            && (forall j | 0 <= j < |s.jobs| :: Stays(s.runtimes[j], t.runtimes[j]) || !s.jobs[j].archived)
  {
    hide Valid, SelectRun;
    ClaimRunKeeps(cal, s, owner, seconds, now, pick, due);
    SelectLeases(cal, s, now, pick, due);
    if ClaimRun(cal, s, owner, seconds, now, pick, due).1.Some? { ClaimGranted(cal, s, owner, seconds, now, pick, due); }
  }

  lemma CommandFollows(s: State, key: string, request: Request, c: Context)
    requires Shaped(s) && Shaped(Kept(s, Execute(s, key, request, c)))
    ensures var t := Kept(s, Execute(s, key, request, c));
            LeasesFollow(s, t) && JobsFollow(s, t, DoCommand(key, request, c))
  {
    hide Mutate;
    var r := Mutate(s, request, |s.commands|, c);
    JobsStay(s, s, DoCommand(key, request, c));
    if r.Ok? && Execute(s, key, request, c).Ok? && !HasCommand(s.commands, request.actor.kind, key) {
      MutateFollows(s, request, |s.commands|, c, key);
    }
  }

  lemma StepFollows(cal: Calendar, s: State, a: Action)
    requires Valid(s) && Shaped(s) && Shaped(Step(cal, s, a))
    ensures var t := Step(cal, s, a);
            && JobsFollow(s, t, a) && LeaseGranted(s, t, a)
            && (forall j | |s.jobs| <= j < |t.jobs| :: !t.jobs[j].archived)
  {
    hide Valid, Execute, ClaimRun, OldestOutOfSync, FirstDeliverable, JobsFollow;
    var t := Step(cal, s, a);
    if a.DoCommand? {
      CommandFollows(s, a.key, a.request, a.context);
    } else {
      if a.DoClaimRun? { ClaimLeases(cal, s, a.owner, a.seconds, a.now, a.pick, a.due); }
      JobsStay(s, t, a);
    }
  }

  /** A transaction lists no second digest job, and leaves the leases of the archived ones alone. */
  lemma StepJobs(cal: Calendar, s: State, a: Action)
    requires Valid(s) && Shaped(s) && OneListed(s)
    ensures Shaped(Step(cal, s, a))
    ensures var t := Step(cal, s, a);
            && |s.jobs| <= |t.jobs| && OneListed(t)
            && (forall j: nat | Retired(t, j) :: (Retired(s, j) || Listing(s, j)) && Stays(s.runtimes[j], t.runtimes[j]))
            && (forall j: nat | Retired(t, j) && Listing(s, j) :: a.DoCommand? && a.request.op == Archive(j))
  {
    hide Valid, Step;
    StepKeeps(cal, s, a);
    ShapedOf(Step(cal, s, a));
    StepFollows(cal, s, a);
    FollowsKeep(s, Step(cal, s, a), a);
  }

  lemma FollowsKeep(s: State, t: State, a: Action)
    requires Shaped(s) && Shaped(t) && OneListed(s) && JobsFollow(s, t, a) && LeaseGranted(s, t, a)
    requires forall j | |s.jobs| <= j < |t.jobs| :: !t.jobs[j].archived
    ensures OneListed(t)
    ensures forall j: nat | Retired(t, j) :: (Retired(s, j) || Listing(s, j)) && Stays(s.runtimes[j], t.runtimes[j])
    ensures forall j: nat | Retired(t, j) && Listing(s, j) :: a.DoCommand? && a.request.op == Archive(j)
  {
    forall i, k | Listing(t, i) && Listing(t, k) ensures i == k {
      assert i < |s.jobs| ==> Listing(s, i);
      assert k < |s.jobs| ==> Listing(s, k);
      assert t.jobs[|s.jobs|..] == [] ==> |t.jobs| == |s.jobs|;
    }
  }

  // ----- The invariant across jobs

  /** Every send of the job that may deliver is acknowledged. */
  ghost predicate SentAcked(w: World, j: nat) {
    forall c | 0 <= c < |w.commits| && w.commits[c].job == j && MayDeliver(w, c) && w.commits[c].digest < |w.issued| ::
      w.issued[w.commits[c].digest].through <= w.acked
  }

  /** Nothing is left to deliver for the job, and none of its workers is about to send. */
  ghost predicate Quiet(w: World, j: nat) {
    SentAcked(w, j) && forall id | id in w.workers && id.0 == j :: !Poised(w, id)
  }

  /** Every send that may deliver, of any job, ends at or before event `e`. */
  ghost predicate AllCovered(w: World, e: nat) {
    forall c | 0 <= c < |w.commits| && MayDeliver(w, c) && w.commits[c].digest < |w.issued| ::
      w.issued[w.commits[c].digest].through <= e
  }

  /** The sends that may deliver follow one another without overlap, whichever jobs they belong to. */
  ghost predicate AllChained(w: World) {
    forall a, b | 0 <= a < b < |w.commits| && MayDeliver(w, a) && MayDeliver(w, b)
                  && w.commits[a].digest < |w.issued| && w.commits[b].digest < |w.issued| ::
      w.issued[w.commits[a].digest].through <= w.issued[w.commits[b].digest].from
  }

  ghost predicate RetiredAreQuiet(w: World) {
    forall j: nat | Retired(w.store, j) :: Quiet(w, j)
  }

  ghost predicate DigestsOnly(w: World) {
    && (forall c | 0 <= c < |w.commits| :: w.commits[c].job < |w.store.jobs| && w.store.jobs[w.commits[c].job].template == CrmDigest)
    && (forall id | id in w.workers :: id.0 < |w.store.jobs| && w.store.jobs[id.0].template == CrmDigest)
  }

  /** The newest worker of the listed job has a digest it has not sent. */
  predicate Leads(w: World, id: Id)
    requires Shaped(w.store)
  {
    id in w.workers && Listing(w.store, id.0) && id.1 == w.store.runtimes[id.0].fence && Unsent(w.workers[id].pc).Some?
  }

  /** The digest it has not sent starts at the acknowledgement, and everything sent has ended there. */
  ghost predicate AheadOfAll(w: World, id: Id)
    requires Shaped(w.store)
  {
    Leads(w, id) ==>
      var d := Unsent(w.workers[id].pc).value;
      d < |w.issued| && w.issued[d].from == w.acked && AllCovered(w, w.acked)
  }

  ghost predicate AcrossValid(w: World)
    requires Shaped(w.store)
  {
    && OneListed(w.store)
    && RetiredAreQuiet(w)
    && DigestsOnly(w)
    && AllChained(w)
    && (forall id | id in w.workers :: AheadOfAll(w, id) && Ordinary(w.workers[id].pc))
    && MessagesSent(w)
  }

  // ----- What stays true while sends only settle

  /** A worker at the point of sending was there before. */
  ghost predicate ApplyingStays(w: World, w': World) {
    forall id | id in w'.workers && w'.workers[id].pc.Applying? :: id in w.workers && w.workers[id].pc.Applying?
  }

  lemma MayDeliverBack(w: World, w': World, c: nat)
    requires Settles(w, w') && ApplyingStays(w, w') && c < |w.commits| && MayDeliver(w', c)
    ensures MayDeliver(w, c)
  {
  }

  lemma KnownDigests(w: World)
    requires CommitsSound(w)
    ensures forall c | 0 <= c < |w.commits| :: w.commits[c].digest < |w.issued|
  {
    forall c | 0 <= c < |w.commits| ensures w.commits[c].digest < |w.issued| { assert Known(w, c); }
  }

  lemma CoveredStays(w: World, w': World, e: nat, e': nat)
    requires CommitsSound(w) && Settles(w, w') && ApplyingStays(w, w') && AllCovered(w, e) && e <= e'
    ensures AllCovered(w', e')
  {
    hide MayDeliver, ApplyingStays, CommitSound, Known, Chained;
    KnownDigests(w);
    forall c | 0 <= c < |w'.commits| && MayDeliver(w', c) && w'.commits[c].digest < |w'.issued|
      ensures w'.issued[w'.commits[c].digest].through <= e'
    {
      MayDeliverBack(w, w', c);
    }
  }

  lemma ChainStays(w: World, w': World)
    requires CommitsSound(w) && Settles(w, w') && ApplyingStays(w, w') && AllChained(w)
    ensures AllChained(w')
  {
    hide MayDeliver, ApplyingStays, CommitSound, Known, Chained;
    KnownDigests(w);
    forall a, b | 0 <= a < b < |w'.commits| && MayDeliver(w', a) && MayDeliver(w', b)
                  && w'.commits[a].digest < |w'.issued| && w'.commits[b].digest < |w'.issued|
      ensures w'.issued[w'.commits[a].digest].through <= w'.issued[w'.commits[b].digest].from
    {
      MayDeliverBack(w, w', a);
      MayDeliverBack(w, w', b);
    }
  }

  /** A quiet job stays quiet unless one of its workers gets ready to send. */
  lemma QuietStays(w: World, w': World, j: nat)
    requires CommitsSound(w) && Settles(w, w') && ApplyingStays(w, w') && Quiet(w, j)
    requires forall id | id in w'.workers && id.0 == j && Poised(w', id) :: id in w.workers && Poised(w, id)
    ensures Quiet(w', j)
  {
    hide MayDeliver, ApplyingStays, Poised, CommitSound, Known, Chained;
    KnownDigests(w);
    forall c | 0 <= c < |w'.commits| && w'.commits[c].job == j && MayDeliver(w', c) && w'.commits[c].digest < |w'.issued|
      ensures w'.issued[w'.commits[c].digest].through <= w'.acked
    {
      MayDeliverBack(w, w', c);
    }
  }

  lemma SentIsLive(w: World, c: nat)
    requires c < |w.commits| && MayDeliver(w, c)
    ensures Live(w.commits[c])
  {
  }

  /** Everything sent is acknowledged once the listed job has nothing in flight. */
  lemma AllAreAcked(w: World, j: nat)
    requires Shaped(w.store) && AcrossValid(w) && Listing(w.store, j) && CoveredBy(w, j, w.acked)
    ensures AllCovered(w, w.acked)
  {
    hide AllChained, AheadOfAll, MayDeliver, MessagesSent;
    forall c | 0 <= c < |w.commits| && MayDeliver(w, c) && w.commits[c].digest < |w.issued|
      ensures w.issued[w.commits[c].digest].through <= w.acked
    {
      var k := w.commits[c].job;
      SentIsLive(w, c);
      if k != j {
        assert Listing(w.store, j) && !Listing(w.store, k);
        assert Retired(w.store, k);
        assert Quiet(w, k);
      }
    }
  }

  lemma SummarizingIsIdle(w: World, id: Id)
    requires WorldValid(w) && Shaped(w.store) && id in w.workers && w.workers[id].pc == Summarizing
    ensures id.0 < |w.store.jobs| && (id.1 == w.store.runtimes[id.0].fence ==> CoveredBy(w, id.0, w.acked))
  {
    hide Valid, FeedSound, CommitsSound, RecordsSound, CoveredBy;
    assert WorkerSound(w, id);
  }

  /** Tokens never fall, and no job is listed that was not. */
  ghost predicate StoreFollows(s: State, t: State)
    requires Shaped(s) && Shaped(t)
  {
    && |s.jobs| <= |t.jobs|
    && (forall j | 0 <= j < |s.jobs| :: s.runtimes[j].fence <= t.runtimes[j].fence && s.jobs[j].template == t.jobs[j].template)
    && (forall j | 0 <= j < |s.jobs| && Listing(t, j) :: Listing(s, j))
  }

  lemma AdvancesFollows(s: State, t: State)
    requires Shaped(s) && Shaped(t) && Advances(s, t)
    ensures StoreFollows(s, t)
  {
    forall j | 0 <= j < |s.jobs|
      ensures s.runtimes[j].fence <= t.runtimes[j].fence && s.jobs[j].template == t.jobs[j].template && (s.jobs[j].archived ==> t.jobs[j].archived)
    {
      assert RowAdvances(s, t, j);
    }
  }

  lemma TokenBounded(w: World, id: Id)
    requires WorldValid(w) && Shaped(w.store) && id in w.workers
    ensures id.0 < |w.store.jobs| && id.1 <= w.store.runtimes[id.0].fence
  {
    hide Valid, FeedSound, CommitsSound, RecordsSound, Sound;
    assert WorkerSound(w, id);
  }

  /** A worker keeps the digest it is about to send, drops it, or has just summarized it. */
  ghost predicate WorkerFollows(w: World, w': World, k: Id)
    requires k in w'.workers
  {
    var after := Unsent(w'.workers[k].pc);
    && Ordinary(w'.workers[k].pc)
    && (|| after.None?
        || (k in w.workers && after == Unsent(w.workers[k].pc))
        || (k in w.workers && w.workers[k].pc == Summarizing && after.value < |w'.issued| && w'.issued[after.value].from == w.acked))
  }

  /** A worker stays ahead of all sends while those only settle. */
  lemma AheadStays(w: World, w': World, k: Id)
    requires WorldValid(w) && Shaped(w.store) && Shaped(w'.store) && AcrossValid(w)
    requires Settles(w, w') && ApplyingStays(w, w') && StoreFollows(w.store, w'.store) && k in w'.workers && WorkerFollows(w, w', k)
    requires w'.acked == w.acked || !Leads(w', k)
    ensures AheadOfAll(w', k)
  {
    hide Valid, FeedSound, CommitsSound, RecordsSound, WorkersSound, AllCovered, Settles, ApplyingStays, RetiredAreQuiet, OneListed, AllChained,
      MessagesSent, Unsent, Ordinary;
    if Leads(w', k) {
      var after := Unsent(w'.workers[k].pc);
      LeadsFollows(w, w', k);
      IssuedStays(w, w');
      if w.workers[k].pc == Summarizing && after != Unsent(w.workers[k].pc) {
        SummarizingIsIdle(w, k);
        AllAreAcked(w, k.0);
      } else {
        assert AheadOfAll(w, k);
      }
      CoveredStays(w, w', w.acked, w.acked);
    }
  }

  lemma LeadsFollows(w: World, w': World, k: Id)
    requires WorldValid(w) && Shaped(w.store) && Shaped(w'.store) && StoreFollows(w.store, w'.store)
    requires k in w'.workers && WorkerFollows(w, w', k) && Leads(w', k)
    ensures k in w.workers && Listing(w.store, k.0) && k.1 == w.store.runtimes[k.0].fence
    ensures Unsent(w'.workers[k].pc) == Unsent(w.workers[k].pc) ==> Leads(w, k)
  {
    hide WorldValid, Unsent, Ordinary;
    TokenBounded(w, k);
  }

  lemma IssuedStays(w: World, w': World)
    requires Settles(w, w')
    ensures w.issued <= w'.issued
  {
  }

  /** A move without a new commit keeps the invariant. */
  lemma SettlesKeeps(w: World, w': World)
    requires WorldValid(w) && Shaped(w.store) && Shaped(w'.store) && AcrossValid(w)
    requires Settles(w, w') && ApplyingStays(w, w') && StoreFollows(w.store, w'.store)
    requires forall k | k in w'.workers :: WorkerFollows(w, w', k) && (k in w.workers || Listing(w'.store, k.0))
    requires w'.acked == w.acked || forall k | k in w'.workers :: !Leads(w', k)
    requires OneListed(w'.store) && MessagesSent(w')
    requires forall j: nat | Retired(w'.store, j) :: Quiet(w', j)
    ensures AcrossValid(w')
  {
    hide Valid, FeedSound, RecordsSound, WorkersSound, CommitSound, Chained, AllChained, AheadOfAll, OneListed, Quiet, Leads, Unsent, Ordinary,
      ApplyingStays, MessagesSent;
    ChainStays(w, w');
    forall k | k in w'.workers ensures AheadOfAll(w', k) && Ordinary(w'.workers[k].pc) { AheadStays(w, w', k); }
  }

  // ----- A worker arms a send

  lemma NothingArmedYet(w: World, id: Id)
    requires WorldValid(w) && id in w.workers && AboutToArm(w.workers[id].pc)
    ensures !HasCommit(w, id) && w.workers[id].pc.w.digest < |w.issued|
  {
    hide Valid, FeedSound, CommitsSound, RecordsSound, HasCommit, Ready;
    assert WorkerSound(w, id);
  }

  lemma ArmsLists(w: World, id: Id)
    requires Shaped(w.store) && AcrossValid(w) && Poised(w, id)
    ensures Listing(w.store, id.0) && Leads(w, id)
  {
    hide AllChained, AheadOfAll, SentAcked, MessagesSent;
    assert Retired(w.store, id.0) ==> Quiet(w, id.0);
  }

  /** Before the new commit the sends are those that could be made before. */
  lemma ArmsBack(w: World, w': World, id: Id, c: nat)
    requires id in w.workers && Arms(w, w', id) && !HasCommit(w, id)
    requires c < |w.commits| && MayDeliver(w', c)
    ensures w'.commits[c] == w.commits[c] && MayDeliver(w, c)
  {
    assert !CommitOf(w, id, c);
  }

  lemma ArmsChain(w: World, w': World, id: Id)
    requires WorldValid(w) && Shaped(w.store) && AcrossValid(w) && id in w.workers && Arms(w, w', id)
    ensures AllChained(w')
  {
    hide Valid, FeedSound, RecordsSound, WorkersSound, CommitsSound, RetiredAreQuiet, MayDeliver, Poised, HasCommit, MessagesSent, OneListed, Leads;
    ArmsLists(w, id);
    NothingArmed(w, w', id);
    assert AheadOfAll(w, id);
    forall a, b | 0 <= a < b < |w'.commits| && MayDeliver(w', a) && MayDeliver(w', b)
                  && w'.commits[a].digest < |w'.issued| && w'.commits[b].digest < |w'.issued|
      ensures w'.issued[w'.commits[a].digest].through <= w'.issued[w'.commits[b].digest].from
    {
      ArmsBack(w, w', id, a);
      if b < |w.commits| { ArmsBack(w, w', id, b); }
    }
  }

  lemma NothingArmed(w: World, w': World, id: Id)
    requires WorldValid(w) && id in w.workers && Arms(w, w', id)
    ensures !HasCommit(w, id) && Unsent(w.workers[id].pc) == Some(w.workers[id].pc.w.digest) && Unsent(w'.workers[id].pc).None?
    ensures Ordinary(w'.workers[id].pc) && w.workers[id].pc.w.digest < |w.issued|
  {
    hide WorldValid, HasCommit;
    NothingArmedYet(w, id);
  }

  /** Another job's worker is poised only if it was. */
  lemma PoisedApart(w: World, w': World, id: Id, k: Id)
    requires Shaped(w.store) && StoreKept(w.store, w'.store, id) && Poised(w', k)
    requires k in w.workers && k in w'.workers && w'.workers[k] == w.workers[k] && k != id
    ensures Poised(w, k)
  {
    assert LeaseKept(w.store.runtimes[k.0], w'.store.runtimes[k.0]);
    assert k.0 != id.0 ==> CursorOf(w'.store, k.0, DeliveryState) == CursorOf(w.store, k.0, DeliveryState);
  }

  lemma ArmsQuiet(w: World, w': World, id: Id, j: nat)
    requires WorldValid(w) && Shaped(w.store) && id in w.workers && Arms(w, w', id) && StoreKept(w.store, w'.store, id)
    requires j != id.0 && Quiet(w, j)
    ensures Quiet(w', j)
  {
    hide Valid, FeedSound, RecordsSound, WorkersSound, CommitsSound, MayDeliver, Poised, HasCommit, StoreKept;
    NothingArmed(w, w', id);
    forall c | 0 <= c < |w'.commits| && w'.commits[c].job == j && MayDeliver(w', c) && w'.commits[c].digest < |w'.issued|
      ensures w'.issued[w'.commits[c].digest].through <= w'.acked
    {
      ArmsBack(w, w', id, c);
    }
    forall k | k in w'.workers && k.0 == j ensures !Poised(w', k) {
      if Poised(w', k) { PoisedApart(w, w', id, k); }
    }
  }

  /** After the arming nobody has a digest it has not sent. */
  lemma ArmedLeads(w: World, w': World, id: Id, k: Id)
    requires Shaped(w.store) && Shaped(w'.store) && OneListed(w.store) && Listing(w.store, id.0)
    requires id in w.workers && Arms(w, w', id) && StoreKept(w.store, w'.store, id)
    requires Unsent(w'.workers[id].pc).None?
    ensures !Leads(w', k)
  {
    hide Unsent;
    assert Listing(w'.store, k.0) == Listing(w.store, k.0);
    assert Listing(w'.store, k.0) ==> k.0 == id.0;
  }

  /** A new commit starts where every other send has ended. */
  lemma ArmsKeeps(w: World, w': World, id: Id)
    requires WorldValid(w) && Shaped(w.store) && Shaped(w'.store) && AcrossValid(w) && MessagesSent(w')
    requires id in w.workers && Arms(w, w', id) && StoreKept(w.store, w'.store, id)
    ensures AcrossValid(w')
  {
    hide Valid, FeedSound, RecordsSound, WorkersSound, CommitsSound, AllChained, Quiet, MayDeliver, MessagesSent, Poised, HasCommit;
    ArmsLists(w, id);
    ArmsChain(w, w', id);
    NothingArmed(w, w', id);
    assert forall j :: Listing(w'.store, j) == Listing(w.store, j) && Retired(w'.store, j) == Retired(w.store, j);
    forall j: nat | Retired(w'.store, j) ensures Quiet(w', j) {
      assert Retired(w.store, j);
      ArmsQuiet(w, w', id, j);
    }
    forall k | k in w'.workers ensures AheadOfAll(w', k) && Ordinary(w'.workers[k].pc) {
      ArmedLeads(w, w', id, k);
    }
  }

  // ----- A worker moves without arming

  /** A worker of an archived job does not get ready to send. */
  lemma MovesPoised(w: World, w': World, id: Id, k: Id)
    requires Shaped(w.store) && id in w.workers && StoreKept(w.store, w'.store, id) && WorkerMoves(w, w', id)
    requires Ordinary(w.workers[id].pc) && Retired(w.store, k.0) && k in w'.workers && Poised(w', k)
    requires w'.workers[id].pc == w.workers[id].pc ==> w'.store.cursors == w.store.cursors
    ensures k in w.workers && Poised(w, k)
  {
    hide Ordinary;
    if k != id {
      PoisedApart(w, w', id, k);
    } else {
      assert LeaseKept(w.store.runtimes[k.0], w'.store.runtimes[k.0]);
    }
  }

  lemma MovesFollow(w: World, w': World, id: Id)
    requires id in w.workers && WorkerMoves(w, w', id) && forall k | k in w.workers :: Ordinary(w.workers[k].pc)
    ensures ApplyingStays(w, w')
    ensures forall k | k in w'.workers :: WorkerFollows(w, w', k)
  {
    hide Ordinary, Listed;
  }

  /** A worker that writes a cursor moves on. */
  lemma WritesMoveOn(w: World, m: Move, id: Id)
    requires Shaped(w.store) && id in w.workers
    ensures Acts(w, m, id).workers[id].pc == w.workers[id].pc ==> Acts(w, m, id).store.cursors == w.store.cursors
  {
    hide WriteOf, UpdateCursor, Heartbeat, Resume, RunClaimCurrent, Carries, Listed, HasCommit;
    var pc := w.workers[id].pc;
    if m.WritesCursor? && Writes(pc) && pc.revision.Some? { AfterWriteDiffers(pc); }
    if m.Beats? { BeatCursors(w.store, id.0, w.workers[id].run, w.workers[id].owner, id.1, m.seconds, m.now); }
  }

  lemma AfterWriteDiffers(pc: Pc)
    requires Writes(pc) && pc.revision.Some?
    ensures AfterWrite(pc) != pc
  {
  }

  lemma BeatCursors(s: State, job: nat, run: nat, owner: Owner, token: nat, seconds: int, now: Time)
    requires Shaped(s)
    ensures Heartbeat(s, job, run, owner, token, seconds, now).0.cursors == s.cursors
  {
  }

  lemma KeptFollows(s: State, t: State, id: Id)
    requires Shaped(s) && Shaped(t) && StoreKept(s, t, id)
    ensures StoreFollows(s, t)
    ensures forall j :: Retired(t, j) == Retired(s, j) && Listing(t, j) == Listing(s, j)
  {
  }

  lemma MovesQuiet(w: World, w': World, id: Id, j: nat)
    requires WorldValid(w) && Shaped(w.store) && id in w.workers && Retired(w.store, j) && Quiet(w, j)
    requires StoreKept(w.store, w'.store, id) && Settles(w, w') && WorkerMoves(w, w', id) && ApplyingStays(w, w')
    requires Ordinary(w.workers[id].pc)
    requires w'.workers[id].pc == w.workers[id].pc ==> w'.store.cursors == w.store.cursors
    ensures Quiet(w', j)
  {
    hide Valid, FeedSound, CommitsSound, RecordsSound, WorkersSound, StoreKept, Settles, WorkerMoves, ApplyingStays, Poised, Quiet, Ordinary;
    forall k | k in w'.workers && k.0 == j && Poised(w', k) ensures k in w.workers && Poised(w, k) {
      MovesPoised(w, w', id, k);
    }
    QuietStays(w, w', j);
  }

  lemma ActsAcross(w: World, m: Move, id: Id)
    requires WorldValid(w) && Shaped(w.store) && AcrossValid(w) && id in w.workers
    requires !m.Elsewhere? && !m.Claims? && !m.Delivers? && !m.Acknowledges?
    requires Shaped(Acts(w, m, id).store) && MessagesSent(Acts(w, m, id))
    ensures AcrossValid(Acts(w, m, id))
  {
    hide WorldValid, Acts, AllChained, AheadOfAll, Settles, StoreKept, Arms, Quiet, WorkerFollows, ApplyingStays, Ordinary, MessagesSent, StoreFollows,
      Leads;
    var w' := Acts(w, m, id);
    ActsShape(w, m, id);
    ActsAlone(w, m, id);
    if |w'.commits| == |w.commits| {
      KeptFollows(w.store, w'.store, id);
      MovesFollow(w, w', id);
      WritesMoveOn(w, m, id);
      forall j: nat | Retired(w'.store, j) ensures Quiet(w', j) {
        assert Retired(w.store, j);
        MovesQuiet(w, w', id, j);
      }
      SettlesKeeps(w, w');
    } else {
      ArmsKeeps(w, w', id);
    }
  }

  // ----- Everything around the workers

  /** An archive is tidy if it finds its job quiet. */
  ghost predicate Tidy(cal: Calendar, w: World, m: Move)
    requires Shaped(w.store)
  {
    m.Elsewhere? ==> forall j: nat :: Listing(w.store, j) && Retired(Step(cal, w.store, m.a), j) ==> Quiet(w, j)
  }

  lemma StepQuiet(cal: Calendar, w: World, a: Action, w': World, j: nat)
    requires Shaped(w.store) && Shaped(w'.store) && j < |w.store.jobs| <= |w'.store.jobs|
    requires Stays(w.store.runtimes[j], w'.store.runtimes[j])
    requires WorldValid(w) && Quiet(w, j) && !a.DoUpdateCursor?
    requires w' == w.(store := w'.store, workers := w'.workers) && w'.store == Step(cal, w.store, a)
    requires forall k | k in w'.workers :: (k in w.workers && w'.workers[k] == w.workers[k]) || w'.workers[k].pc == Beating(Registering)
    ensures Quiet(w', j)
  {
    hide Valid, FeedSound, RecordsSound, WorkersSound, CommitSound, Known, Chained, Step, MayDeliver, Quiet;
    CursorsStay(cal, w.store, a);
    forall k | k in w'.workers && k.0 == j && Poised(w', k) ensures k in w.workers && Poised(w, k) {
    }
    QuietStays(w, w', j);
  }

  lemma StepAcross(cal: Calendar, w: World, a: Action, w': World)
    requires WorldValid(w) && Shaped(w.store) && AcrossValid(w) && Tidy(cal, w, Elsewhere(a)) && !a.DoUpdateCursor?
    requires Shaped(w'.store) && w'.store == Step(cal, w.store, a) && w' == w.(store := w'.store, workers := w'.workers)
    requires forall k | k in w'.workers :: (k in w.workers && w'.workers[k] == w.workers[k])
                                           || (w'.workers[k].pc == Beating(Registering) && Listing(w'.store, k.0))
    ensures AcrossValid(w')
  {
    hide Valid, FeedSound, RecordsSound, WorkersSound, CommitsSound, Step, OneListed, AllChained, AheadOfAll, Quiet, Advances, MayDeliver, Leads;
    StepAdvances(cal, w.store, a);
    AdvancesFollows(w.store, w'.store);
    StepJobs(cal, w.store, a);
    forall j: nat | Retired(w'.store, j) ensures Quiet(w', j) {
      assert Retired(w.store, j) ==> Quiet(w, j);
      StepQuiet(cal, w, a, w', j);
    }
    StepWorkers(w, w');
    SettlesKeeps(w, w');
  }

  lemma StepWorkers(w: World, w': World)
    requires forall k | k in w.workers :: Ordinary(w.workers[k].pc)
    requires w' == w.(store := w'.store, workers := w'.workers)
    requires forall k | k in w'.workers :: (k in w.workers && w'.workers[k] == w.workers[k]) || w'.workers[k].pc == Beating(Registering)
    ensures Settles(w, w') && ApplyingStays(w, w') && forall k | k in w'.workers :: WorkerFollows(w, w', k)
  {
    hide MayDeliver;
    WrappedUnsent(Registering);
  }

  lemma ClaimsAcross(cal: Calendar, w: World, m: Move)
    requires WorldValid(w) && Shaped(w.store) && AcrossValid(w) && m.Claims? && Shaped(Do(cal, w, m).store)
    ensures AcrossValid(Do(cal, w, m))
  {
    hide Valid, FeedSound, RecordsSound, WorkersSound, CommitsSound, ClaimRun, AllChained, RetiredAreQuiet, AheadOfAll, MessagesSent, OneListed;
    var a := DoClaimRun(m.owner, m.seconds, m.now, m.pick, m.due);
    var (s, claim) := ClaimRun(cal, w.store, m.owner, m.seconds, m.now, m.pick, m.due);
    if claim.Some? { ClaimGranted(cal, w.store, m.owner, m.seconds, m.now, m.pick, m.due); }
    ClaimIsTidy(cal, w, a);
    StepAcross(cal, w, a, Do(cal, w, m));
  }

  lemma ClaimIsTidy(cal: Calendar, w: World, a: Action)
    requires WorldValid(w) && Shaped(w.store) && OneListed(w.store) && a.DoClaimRun?
    ensures Tidy(cal, w, Elsewhere(a))
  {
    hide Valid, FeedSound, RecordsSound, WorkersSound, CommitsSound, Step, OneListed, Quiet;
    StepJobs(cal, w.store, a);
  }

  /** While a worker has a digest it has not sent, no acknowledgement can come. */
  lemma NothingToAcknowledge(w: World, d: nat, k: Id)
    requires WorldValid(w) && Shaped(w.store) && AcrossValid(w) && k in w.workers && Leads(w, k)
    requires d in w.ackRequests && d < |w.issued|
    ensures w.issued[d].through <= w.acked
  {
    hide Valid, CommitsSound, RecordsSound, WorkersSound, AllChained, RetiredAreQuiet, OneListed, Leads;
    assert AheadOfAll(w, k);
    assert d in w.verified && d in w.messages;
    var n :| 0 <= n < |w.messages| && w.messages[n] == d;
    assert Launches(w, w.messages[n]);
    var c :| 0 <= c < |w.commits| && w.commits[c].digest == d && w.commits[c].fate == Launched;
    assert MayDeliver(w, c);
  }

  lemma FeedAcross(w: World, w': World)
    requires WorldValid(w) && Shaped(w.store) && AcrossValid(w) && MessagesSent(w')
    requires w' == w.(acked := w'.acked, messages := w'.messages) && w.acked <= w'.acked
    requires w'.acked == w.acked || forall k | k in w.workers :: !Leads(w, k)
    ensures AcrossValid(w')
  {
    hide WorldValid, OneListed, AllChained, AheadOfAll, Quiet, MayDeliver, MessagesSent, Leads;
    StepWorkersStay(w, w');
    forall k | k in w'.workers ensures Leads(w', k) == Leads(w, k) { LeadsSame(w, w', k); }
    forall j: nat | Retired(w'.store, j) ensures Quiet(w', j) {
      assert Quiet(w, j);
      QuietFeed(w, w', j);
    }
    SettlesKeeps(w, w');
  }

  lemma LeadsSame(w: World, w': World, k: Id)
    requires Shaped(w.store) && w'.store == w.store && w'.workers == w.workers
    ensures Leads(w', k) == Leads(w, k)
  {
  }

  lemma QuietFeed(w: World, w': World, j: nat)
    requires WorldValid(w) && Quiet(w, j) && w' == w.(acked := w'.acked, messages := w'.messages) && w.acked <= w'.acked
    ensures Quiet(w', j)
  {
    hide WorldValid;
    assert forall c: nat | c < |w.commits| :: MayDeliver(w', c) == MayDeliver(w, c);
    assert forall id :: Poised(w', id) == Poised(w, id);
  }

  lemma StepWorkersStay(w: World, w': World)
    requires forall k | k in w.workers :: Ordinary(w.workers[k].pc)
    requires w' == w.(acked := w'.acked, messages := w'.messages) && w.acked <= w'.acked
    ensures Settles(w, w') && ApplyingStays(w, w') && forall k | k in w'.workers :: WorkerFollows(w, w', k)
  {
    hide MayDeliver, Ordinary;
  }

  lemma DoAcross(cal: Calendar, w: World, m: Move)
    requires WorldValid(w) && Shaped(w.store) && AcrossValid(w) && Tidy(cal, w, m) && Shaped(Do(cal, w, m).store)
    ensures AcrossValid(Do(cal, w, m))
  {
    hide WorldValid, Acts, ClaimRun, Step, Tidy, AllChained, AheadOfAll, RetiredAreQuiet, DigestsOnly, OneListed, Ordinary, MessagesSent, Leads;
    DoMessages(cal, w, m);
    match m {
      case Elsewhere(a) => if !a.DoClaimRun? && !a.DoUpdateCursor? { StepAcross(cal, w, a, Do(cal, w, m)); }
      case Claims(_, _, _, _, _) => ClaimsAcross(cal, w, m);
      case Delivers(_) => FeedAcross(w, Do(cal, w, m));
      case Acknowledges(d) =>
        if d in w.ackRequests && d < |w.issued| && w.issued[d].through > w.acked {
          forall k | k in w.workers ensures !Leads(w, k) {
            if Leads(w, k) { NothingToAcknowledge(w, d, k); }
          }
          FeedAcross(w, Do(cal, w, m));
        }
      case _ => if m.id in w.workers { ActsAcross(w, m, m.id); }
    }
  }

  // ----- Histories

  /** Every archive of the story is tidy. */
  ghost predicate TidyStory(cal: Calendar, w: World, moves: seq<Move>)
    decreases |moves|
  {
    moves != [] && Shaped(w.store) ==> Tidy(cal, w, moves[0]) && TidyStory(cal, Do(cal, w, moves[0]), moves[1..])
  }

  lemma GenesisAcross(start: nat)
    ensures Shaped(Genesis(start).store) && AcrossValid(Genesis(start))
  {
  }

  lemma {:induction false} StoryAcross(cal: Calendar, w: World, moves: seq<Move>)
    requires WorldValid(w) && Shaped(w.store) && AcrossValid(w) && TidyStory(cal, w, moves)
    ensures Shaped(Story(cal, w, moves).store) && AcrossValid(Story(cal, w, moves))
    decreases |moves|
  {
    hide WorldValid, AcrossValid, Do, Tidy;
    if moves != [] {
      DoKeeps(cal, w, moves[0]);
      ValidStore(Do(cal, w, moves[0]));
      DoAcross(cal, w, moves[0]);
      StoryAcross(cal, Do(cal, w, moves[0]), moves[1..]);
    }
  }

  lemma ChainedOnce(w: World, i: nat, j: nat, e: nat, a: int, b: int)
    requires AllChained(w) && MayHaveSent(w, a, i, e) && MayHaveSent(w, b, j, e)
    ensures a == b
  {
    assert MayDeliver(w, a) && MayDeliver(w, b);
  }

  /** When every archive finds its job quiet, no event is covered by two sends that may have delivered,
      whichever jobs they belong to. */
  lemma EventsSentOnceAcrossJobs(cal: Calendar, start: nat, moves: seq<Move>, i: nat, j: nat, e: nat, a: int, b: int)
    requires TidyStory(cal, Genesis(start), moves)
    requires MayHaveSent(Told(cal, start, moves), a, i, e) && MayHaveSent(Told(cal, start, moves), b, j, e)
    ensures a == b
  {
    hide WorldValid, OneListed, AheadOfAll, DigestsOnly, RetiredAreQuiet, TidyStory, AllChained, MayHaveSent, MessagesSent;
    GenesisValid(start);
    GenesisAcross(start);
    StoryAcross(cal, Genesis(start), moves);
    ChainedOnce(Told(cal, start, moves), i, j, e, a, b);
  }

  /** What an operator can see before an archive: with no lease, and nothing pending or its digest
      acknowledged, the job is quiet. */
  lemma SettledIsQuiet(w: World, j: nat)
    requires WorldValid(w) && Shaped(w.store) && j < |w.store.jobs| && w.store.runtimes[j].lease.None?
    requires InFlight(w.store, j) ==> match Recorded(w.store, j)
                                      case Some(d) => d < |w.issued| && w.issued[d].through <= w.acked
                                      case None => false
    ensures Quiet(w, j)
  {
    hide Valid, FeedSound, RecordsSound, WorkersSound, CommitSound, Known, Chained, MayDeliver, InFlight, Recorded;
    AllAcked(w, j);
    forall c | 0 <= c < |w.commits| && w.commits[c].job == j && MayDeliver(w, c) && w.commits[c].digest < |w.issued|
      ensures w.issued[w.commits[c].digest].through <= w.acked
    {
      SentIsLive(w, c);
    }
  }
}

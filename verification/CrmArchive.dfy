/** When the archive of a digest job is safe: exactly when it finds the job quiet. */
module CrmArchive {
  import opened Options
  import opened Tables
  import opened Steps
  import opened Invariants
  import opened Histories
  import opened CrmDigest
  import opened CrmInvariant
  import opened CrmSafety
  import opened CrmMoves
  import opened CrmPromises
  import opened CrmAcrossJobs
  import opened CrmResend

  /** Two sends that may have delivered cover one event. */
  ghost predicate SentTwice(w: World) {
    exists a, b, i, j, e :: a != b && MayHaveSent(w, a, i, e) && MayHaveSent(w, b, j, e)
  }

  /** Moves that archive quiet jobs only can still lead to such sends. */
  ghost predicate CanSendTwice(cal: Calendar, w: World) {
    exists moves :: TidyStory(cal, w, moves) && SentTwice(Story(cal, w, moves))
  }

  // ----- Free names and a free moment

  lemma {:induction false} KeyLength(commands: seq<Command>) returns (n: nat)
    ensures forall c | c in commands :: |c.key| <= n
    decreases |commands|
  {
    if commands == [] {
      n := 0;
    } else {
      var last := commands[|commands| - 1];
      var m := KeyLength(commands[..|commands| - 1]);
      n := if |last.key| > m then |last.key| else m;
    }
  }

  lemma UnusedKeys(s: State) returns (keys: seq<string>)
    ensures |keys| == 3 && keys[0] != keys[1] && keys[0] != keys[2] && keys[1] != keys[2]
    ensures forall i | 0 <= i < 3 :: Unused(s, keys[i])
  {
    var n := KeyLength(s.commands);
    var a, b, c := seq(n + 1, _ => 'k'), seq(n + 2, _ => 'k'), seq(n + 3, _ => 'k');
    assert |a| == n + 1 && |b| == n + 2 && |c| == n + 3;
    keys := [a, b, c];
  }

  lemma {:induction false} EarlyTime(runs: seq<Run>) returns (now: Time)
    ensures forall q | 0 <= q < |runs| :: now <= runs[q].requestedAt
    decreases |runs|
  {
    if runs == [] {
      now := 0;
    } else {
      var last := runs[|runs| - 1].requestedAt;
      var m := EarlyTime(runs[..|runs| - 1]);
      now := if last < m then last else m;
    }
  }

  // ----- Stories that archive nothing

  lemma NoArchiveIsTidy(cal: Calendar, w: World, m: Move)
    requires WorldValid(w) && Shaped(w.store) && NoArchive(m)
    ensures Tidy(cal, w, m)
  {
    hide Valid, FeedSound, CommitsSound, RecordsSound, WorkersSound, Step, Quiet;
    if m.Elsewhere? {
      StepAdvances(cal, w.store, m.a);
      ShapedOf(Step(cal, w.store, m.a));
      StepFollows(cal, w.store, m.a);
    }
  }

  lemma {:induction false} NoArchiveStory(cal: Calendar, w: World, moves: seq<Move>)
    requires WorldValid(w) && forall m | m in moves :: NoArchive(m)
    ensures TidyStory(cal, w, moves)
    decreases |moves|
  {
    hide WorldValid, Do, Tidy;
    if moves != [] {
      DoKeeps(cal, w, moves[0]);
      NoArchiveIsTidy(cal, w, moves[0]);
      NoArchiveStory(cal, Do(cal, w, moves[0]), moves[1..]);
    }
  }

  /** What a world can come to, the world one move before it can. */
  lemma OneMoveBefore(cal: Calendar, w: World, m: Move)
    requires WorldValid(w) && NoArchive(m) && CanSendTwice(cal, Do(cal, w, m))
    ensures CanSendTwice(cal, w)
  {
    hide WorldValid, Do, Tidy, SentTwice;
    DoKeeps(cal, w, m);
    NoArchiveIsTidy(cal, w, m);
    var u := Do(cal, w, m);
    var rest :| TidyStory(cal, u, rest) && SentTwice(Story(cal, u, rest));
    var moves := [m] + rest;
    assert moves[0] == m && moves[1..] == rest;
    assert TidyStory(cal, w, moves) && SentTwice(Story(cal, w, moves));
  }

  // ----- An archive that is not quiet

  /** A delivered or deliverable send past the acknowledgement can be repeated by a new job. */
  lemma LaunchedIsResent(cal: Calendar, w: World, j: nat, a: int)
    requires WorldValid(w) && Shaped(w.store) && j < |w.store.jobs|
    requires !w.store.hold.enabled && !LiveTemplate(w.store.jobs, CrmDigest)
    requires MayHaveSent(w, a, j, w.acked + 1)
    ensures CanSendTwice(cal, w)
  {
    hide WorldValid, MayHaveSent, TidyStory, Unused;
    var keys := UnusedKeys(w.store);
    var now := EarlyTime(w.store.runs);
    var moves, b := UnackedIsResent(cal, w, keys, now, j, a);
    NoArchiveStory(cal, w, moves);
    var u := Story(cal, w, moves);
    assert SentTwice(u);
  }

  /** A send that reaches past the acknowledgement covers the next event. */
  lemma CoversNext(w: World, c: nat)
    requires WorldValid(w) && c < |w.commits| && w.commits[c].digest < |w.issued|
    requires w.commits[c].fate == Launched && w.issued[w.commits[c].digest].through > w.acked
    ensures MayHaveSent(w, c, w.commits[c].job, w.acked + 1)
  {
    hide Valid, CommitsSound, RecordsSound, WorkersSound;
  }

  lemma AppliesLaunches(cal: Calendar, w: World, c: nat)
    requires WorldValid(w) && Shaped(w.store) && c < |w.commits| && MayDeliver(w, c) && w.commits[c].fate == Armed
    ensures var id := (w.commits[c].job, w.commits[c].token);
            var u := Do(cal, w, Applies(id, false));
            && u.store == w.store && u.acked == w.acked && u.issued == w.issued
            && |u.commits| == |w.commits| && u.commits[c] == w.commits[c].(fate := Launched)
  {
    hide Valid, FeedSound, RecordsSound, WorkersSound, CommitSound, Known, Chained;
    TheCommitIs(w, (w.commits[c].job, w.commits[c].token), c);
  }

  lemma UnackedCanRepeat(cal: Calendar, w: World, c: nat)
    requires WorldValid(w) && Shaped(w.store) && c < |w.commits| && w.commits[c].digest < |w.issued|
    requires !w.store.hold.enabled && !LiveTemplate(w.store.jobs, CrmDigest) && w.commits[c].job < |w.store.jobs|
    requires MayDeliver(w, c) && w.issued[w.commits[c].digest].through > w.acked
    ensures CanSendTwice(cal, w)
  {
    hide WorldValid, Do, MayHaveSent, CanSendTwice;
    if w.commits[c].fate == Launched {
      CoversNext(w, c);
      LaunchedIsResent(cal, w, w.commits[c].job, c);
    } else {
      var m := Applies((w.commits[c].job, w.commits[c].token), false);
      AppliesLaunches(cal, w, c);
      DoKeeps(cal, w, m);
      var u := Do(cal, w, m);
      CoversNext(u, c);
      LaunchedIsResent(cal, u, u.commits[c].job, c);
      OneMoveBefore(cal, w, m);
    }
  }

  /** A poised worker arms its send when the clock reads a time within its lease. */
  lemma PoisedArms(cal: Calendar, w: World, id: Id)
    requires Shaped(w.store) && Poised(w, id) && id.0 < |w.store.jobs|
    ensures var u := Do(cal, w, WritesCursor(id, w.store.runtimes[id.0].lease.value.until - 1));
            && Arms(w, u, id) && u.store == w.store.(cursors := u.store.cursors)
  {
    hide CursorOf;
  }

  lemma PoisedCanRepeat(cal: Calendar, w: World, id: Id)
    requires WorldValid(w) && Shaped(w.store) && Poised(w, id) && id.0 < |w.store.jobs|
    requires !w.store.hold.enabled && !LiveTemplate(w.store.jobs, CrmDigest)
    requires var d := w.workers[id].pc.w.digest; d < |w.issued| && w.issued[d].from == w.acked
    ensures CanSendTwice(cal, w)
  {
    hide Valid, CommitsSound, RecordsSound, WorkersSound, Do, CanSendTwice, CursorOf;
    var m := WritesCursor(id, w.store.runtimes[id.0].lease.value.until - 1);
    PoisedArms(cal, w, id);
    DoKeeps(cal, w, m);
    var u := Do(cal, w, m);
    ValidStore(u);
    assert MayDeliver(u, |w.commits|);
    UnackedCanRepeat(cal, u, |w.commits|);
    OneMoveBefore(cal, w, m);
  }

  /** What an accepted archive changes. */
  lemma ArchiveDone(cal: Calendar, s: State, a: Action, j: nat)
    requires Valid(s) && Shaped(s) && a.DoCommand? && a.request.op == Archive(j) && Listing(s, j)
    requires Retired(Step(cal, s, a), j)
    ensures var t := Step(cal, s, a);
            && !t.hold.enabled && t.cursors == s.cursors
            && |t.jobs| == |s.jobs| && (forall k | 0 <= k < |s.jobs| && k != j :: t.jobs[k] == s.jobs[k])
            && |t.runtimes| == |s.runtimes| && t.runtimes[j].lease == s.runtimes[j].lease && t.runtimes[j].fence == s.runtimes[j].fence
  {
    hide Valid, DropAlerts, AwaitsDelivery;
  }

  lemma PoisedStays(w: World, w': World, id: Id)
    requires Poised(w, id) && w' == w.(store := w'.store) && w'.store.cursors == w.store.cursors
    requires id.0 < |w'.store.runtimes| && w'.store.runtimes[id.0].lease == w.store.runtimes[id.0].lease
    requires w'.store.runtimes[id.0].fence == w.store.runtimes[id.0].fence
    ensures Poised(w', id)
  {
  }

  /** The world just after the transaction. */
  ghost function After(cal: Calendar, w: World, a: Action): World
    requires Shaped(w.store)
  {
    w.(store := Step(cal, w.store, a))
  }

  lemma NotQuietCanRepeat(cal: Calendar, w: World, a: Action, j: nat)
    requires WorldValid(w) && Shaped(w.store) && AcrossValid(w) && Listing(w.store, j)
    requires Retired(After(cal, w, a).store, j) && !Quiet(w, j)
    ensures CanSendTwice(cal, After(cal, w, a))
  {
    hide Valid, FeedSound, CommitsSound, RecordsSound, WorkersSound, Step, AllChained, RetiredAreQuiet, MessagesSent, Ordinary, CanSendTwice, Poised,
      MayDeliver;
    StepJobs(cal, w.store, a);
    var w' := After(cal, w, a);
    ArchiveDone(cal, w.store, a, j);
    DoKeeps(cal, w, Elsewhere(a));
    assert w' == Do(cal, w, Elsewhere(a));
    NoneListed(w.store, w'.store, j);
    if !SentAcked(w, j) {
      var c :| 0 <= c < |w.commits| && w.commits[c].job == j && MayDeliver(w, c) && w.commits[c].digest < |w.issued|
               && w.issued[w.commits[c].digest].through > w.acked;
      assert MayDeliver(w', c) by { SameSends(w, w', c); }
      UnackedCanRepeat(cal, w', c);
    } else {
      var id :| id in w.workers && id.0 == j && Poised(w, id);
      ArmsLists(w, id);
      assert AheadOfAll(w, id);
      PoisedUnsent(w, id);
      PoisedStays(w, w', id);
      PoisedCanRepeat(cal, w', id);
    }
  }

  lemma SameSends(w: World, w': World, c: nat)
    requires c < |w.commits| && w'.commits == w.commits && w'.workers == w.workers
    ensures MayDeliver(w', c) == MayDeliver(w, c)
  {
  }

  lemma PoisedUnsent(w: World, id: Id)
    requires Poised(w, id)
    ensures id in w.workers && w.workers[id].pc.Marking? && Unsent(w.workers[id].pc) == Some(w.workers[id].pc.w.digest)
  {
  }

  lemma NoneListed(s: State, t: State, j: nat)
    requires OneListed(s) && Listing(s, j) && |t.jobs| == |s.jobs| && Retired(t, j)
    requires forall k | 0 <= k < |s.jobs| && k != j :: t.jobs[k] == s.jobs[k]
    ensures !LiveTemplate(t.jobs, CrmDigest)
  {
    forall k | 0 <= k < |t.jobs| ensures t.jobs[k].template != CrmDigest || t.jobs[k].archived {
      assert k != j ==> !Listing(s, k);
    }
  }

  // ----- The exact condition

  /** After an accepted archive of a digest job, tidy moves can lead to two sends of one event if and only
      if the archive did not find the job quiet. */
  lemma ArchiveIsSafe(cal: Calendar, w: World, a: Action, j: nat)
    requires WorldValid(w) && Shaped(w.store) && AcrossValid(w) && Listing(w.store, j)
    requires Retired(After(cal, w, a).store, j)
    ensures CanSendTwice(cal, After(cal, w, a)) <==> !Quiet(w, j)
  {
    hide WorldValid, Step, AllChained, RetiredAreQuiet, MessagesSent, Quiet, CanSendTwice, DigestsOnly, AheadOfAll, Ordinary;
    if Quiet(w, j) {
      QuietIsSafe(cal, w, a, j);
    } else {
      NotQuietCanRepeat(cal, w, a, j);
    }
  }

  lemma QuietIsSafe(cal: Calendar, w: World, a: Action, j: nat)
    requires WorldValid(w) && Shaped(w.store) && AcrossValid(w) && Listing(w.store, j)
    requires Retired(After(cal, w, a).store, j) && Quiet(w, j)
    ensures !CanSendTwice(cal, After(cal, w, a))
  {
    hide Valid, FeedSound, CommitsSound, RecordsSound, WorkersSound, Step, AllChained, RetiredAreQuiet, MessagesSent, Quiet, DigestsOnly, AheadOfAll,
      Ordinary, MayHaveSent, TidyStory;
    StepJobs(cal, w.store, a);
    QuietIsTidy(cal, w, a, j);
    var m := Elsewhere(a);
    var w' := Do(cal, w, m);
    assert w' == After(cal, w, a);
    DoKeeps(cal, w, m);
    DoAcross(cal, w, m);
    forall moves | TidyStory(cal, w', moves) ensures !SentTwice(Story(cal, w', moves)) {
      StoryAcross(cal, w', moves);
      var u := Story(cal, w', moves);
      forall x, y, i, k, e | MayHaveSent(u, x, i, e) && MayHaveSent(u, y, k, e) ensures x == y { ChainedOnce(u, i, k, e, x, y); }
    }
  }

  /** The archive retires no other job. */
  lemma QuietIsTidy(cal: Calendar, w: World, a: Action, j: nat)
    requires WorldValid(w) && Shaped(w.store) && OneListed(w.store) && Listing(w.store, j) && Quiet(w, j)
    ensures Tidy(cal, w, Elsewhere(a))
  {
    hide WorldValid, Step, Quiet;
  }

  /** The same for the archive that comes after any history whose own archives were tidy. */
  lemma ArchiveIsSafeInHistory(cal: Calendar, start: nat, moves: seq<Move>, a: Action, j: nat)
    requires TidyStory(cal, Genesis(start), moves)
    requires var w := Told(cal, start, moves); Shaped(w.store) && Listing(w.store, j) && Retired(After(cal, w, a).store, j)
    ensures var w := Told(cal, start, moves); CanSendTwice(cal, After(cal, w, a)) <==> !Quiet(w, j)
  {
    hide WorldValid, AcrossValid, TidyStory, Step, Quiet, CanSendTwice;
    ToldValid(cal, start, moves);
    GenesisValid(start);
    GenesisAcross(start);
    StoryAcross(cal, Genesis(start), moves);
    ArchiveIsSafe(cal, Told(cal, start, moves), a, j);
  }
}

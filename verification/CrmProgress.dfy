/** What the digest delivery achieves: a worker that nobody disturbs sends the next events. */
module CrmProgress {
  import opened Options
  import opened Tables
  import opened Steps
  import opened Invariants
  import opened CrmDigest
  import opened CrmInvariant
  import opened CrmSafety
  import opened CrmPromises

  const BEAT := 60

  /** The claim of the worker is current at `now`, and its lease runs out within a beat. */
  predicate Undisturbed(w: World, id: Id, now: Time)
    requires Shaped(w.store)
  {
    && id in w.workers
    && id.0 < |w.store.jobs|
    && var me := w.workers[id];
    && RunClaimCurrent(w.store, Claim(me.run, id.0, me.owner, me.revision, id.1), now)
    && w.store.runtimes[id.0].lease.value.until <= now + BEAT
  }

  predicate NextEvents(w: World, work: Work) {
    work.digest < |w.issued| && w.issued[work.digest].from == w.acked
  }

  /** The revision the worker has read is still that of the cursor. */
  predicate Fresh(w: World, id: Id, pc: Pc)
    requires Writes(pc)
  {
    pc.revision.None? || pc.revision.value == CursorOf(w.store, id.0, WriteOf(w.issued, pc).0).revision
  }

  /** The worker is on its way from its claim to the send. */
  predicate OnPath(w: World, id: Id, pc: Pc)
    decreases pc
  {
    match pc
    case Beating(next) =>
      (next == Registering && Value(w.store, id.0, DeliveryState).None?) || next == Reading || (next.Checking? && OnPath(w, id, next))
    case Checking(next) => (next.Previewing? || (next.Marking? && next.mark == Arm && next.revision.None?)) && OnPath(w, id, next)
    case Registering => Value(w.store, id.0, DeliveryState).None?
    case Resuming(_) => Value(w.store, id.0, DeliveryState).None?
    case Reading => true
    case Summarizing => true
    case Preparing(work, k, _) => k < 7 && NextEvents(w, work) && Fresh(w, id, pc)
    case Previewing(work) => NextEvents(w, work)
    case Marking(work, mark, _) => mark == Arm && NextEvents(w, work) && Fresh(w, id, pc)
    case Applying(work) => NextEvents(w, work)
    case Awaiting(work) => NextEvents(w, work)
    case _ => false
  }

  /** How many moves are left before the send is out. */
  function MovesLeft(pc: Pc): nat {
    match pc
    case Beating(next) => if next == Registering then 40 else if next == Reading then 36 else 1 + MovesLeft(next)
    case Registering => 39
    case Resuming(_) => 38
    case Reading => 35
    case Summarizing => 34
    case Preparing(_, k, revision) => if k < 7 then 2 * (7 - k) + 9 + (if revision.None? then 1 else 0) else 0
    case Checking(next) => 1 + MovesLeft(next)
    case Previewing(_) => 6
    case Marking(_, _, revision) => if revision.None? then 3 else 2
    case Applying(_) => 1
    case _ => 0
  }

  /** Each digest the feed makes on the way reaches further than the one before. */
  function NextMove(w: World, id: Id, now: Time): Move
    requires id in w.workers
  {
    match w.workers[id].pc
    case Beating(_) => Beats(id, BEAT, now)
    case Checking(_) => Checks(id, now)
    case Registering => Registers(id, w.acked)
    case Resuming(_) => Resumes(id)
    case Reading => Reads(id, true)
    case Summarizing => Summarizes(id, |w.issued|, Digest(w.acked, w.acked + 1 + |w.issued|, |w.issued|, |w.issued|))
    case Previewing(_) => Previews(id, true)
    case Applying(_) => Applies(id, false)
    case pc => if Writes(pc) && pc.revision.Some? then WritesCursor(id, now) else ReadsRevision(id)
  }

  /** Only the worker's own lease, cursors, digest and commit have changed. */
  ghost predicate Alone(w: World, u: World, id: Id) {
    && u.store == w.store.(runtimes := u.store.runtimes, cursors := u.store.cursors)
    && |u.store.runtimes| == |w.store.runtimes|
    && (forall j | 0 <= j < |w.store.runtimes| && j != id.0 :: u.store.runtimes[j] == w.store.runtimes[j])
    && u.acked == w.acked && w.issued <= u.issued && |w.commits| <= |u.commits|
    && (forall c | 0 <= c < |w.commits| && (w.commits[c].job != id.0 || w.commits[c].token != id.1) :: u.commits[c] == w.commits[c])
  }

  ghost predicate NamesKept(w: World, u: World) {
    && |w.commits| <= |u.commits|
    && forall c | 0 <= c < |w.commits| :: u.commits[c].job == w.commits[c].job && u.commits[c].token == w.commits[c].token
  }

  ghost predicate Advanced(w: World, u: World, id: Id, now: Time)
    requires id in w.workers && Shaped(u.store)
  {
    && Undisturbed(u, id, now) && OnPath(u, id, u.workers[id].pc)
    && MovesLeft(u.workers[id].pc) < MovesLeft(w.workers[id].pc)
    && Alone(w, u, id) && NamesKept(w, u)
  }

  lemma {:induction false} OnPathStays(w: World, u: World, id: Id, pc: Pc)
    requires OnPath(w, id, pc)
    requires u.acked == w.acked && w.issued <= u.issued && u.store.cursors == w.store.cursors
    ensures OnPath(u, id, pc)
    decreases pc
  {
    if pc.Beating? || pc.Checking? { OnPathStays(w, u, id, pc.next); }
  }

  function ClaimOf(w: World, id: Id): Claim
    requires id in w.workers
  {
    Claim(w.workers[id].run, id.0, w.workers[id].owner, w.workers[id].revision, id.1)
  }

  /** The worker goes on to `pc`, under the tables `s` that give it the same claim. */
  lemma MovesTo(w: World, s: State, issued: seq<Digest>, id: Id, now: Time, pc: Pc)
    requires Shaped(w.store) && Shaped(s) && Undisturbed(w, id, now)
    requires s == w.store.(runtimes := s.runtimes) && |s.runtimes| == |w.store.runtimes|
    requires forall j | 0 <= j < |s.runtimes| && j != id.0 :: s.runtimes[j] == w.store.runtimes[j]
    requires RunClaimCurrent(s, ClaimOf(w, id), now) && s.runtimes[id.0].lease.value.until <= now + BEAT
    requires w.issued <= issued && OnPath(w.(issued := issued), id, pc) && MovesLeft(pc) < MovesLeft(w.workers[id].pc)
    ensures Advanced(w, At(w.(store := s, issued := issued), id, pc), id, now)
  {
    hide OnPath, MovesLeft;
    var u := At(w.(store := s, issued := issued), id, pc);
    OnPathStays(w.(issued := issued), u, id, pc);
  }

  lemma BeatKeepsClaim(w: World, id: Id, now: Time)
    requires Shaped(w.store) && Undisturbed(w, id, now)
    ensures var (s, alive) := Heartbeat(w.store, id.0, w.workers[id].run, w.workers[id].owner, id.1, BEAT, now);
            && alive && Shaped(s) && s == w.store.(runtimes := s.runtimes) && |s.runtimes| == |w.store.runtimes|
            && (forall j | 0 <= j < |s.runtimes| && j != id.0 :: s.runtimes[j] == w.store.runtimes[j])
            && RunClaimCurrent(s, ClaimOf(w, id), now) && s.runtimes[id.0].lease.value.until <= now + BEAT
  {
  }

  lemma BeatAdvances(w: World, id: Id, now: Time)
    requires Shaped(w.store) && id in w.workers && Undisturbed(w, id, now)
    requires OnPath(w, id, w.workers[id].pc) && w.workers[id].pc.Beating?
    ensures var u := Acts(w, NextMove(w, id, now), id); Shaped(u.store) && Advanced(w, u, id, now)
  {
    hide Undisturbed, RunClaimCurrent, Heartbeat, Advanced;
    BeatKeepsClaim(w, id, now);
    var me := w.workers[id];
    var s := Heartbeat(w.store, id.0, me.run, me.owner, id.1, BEAT, now).0;
    assert w.(issued := w.issued) == w;
    MovesTo(w, s, w.issued, id, now, me.pc.next);
    assert w.(store := s, issued := w.issued) == w.(store := s);
  }

  lemma StaysPutTo(w: World, id: Id, now: Time, pc: Pc)
    requires Shaped(w.store) && Undisturbed(w, id, now) && OnPath(w, id, pc) && MovesLeft(pc) < MovesLeft(w.workers[id].pc)
    ensures Advanced(w, At(w, id, pc), id, now)
  {
    hide OnPath, MovesLeft;
    assert w.(issued := w.issued) == w && w.(store := w.store, issued := w.issued) == w;
    assert w.store == w.store.(runtimes := w.store.runtimes);
    MovesTo(w, w.store, w.issued, id, now, pc);
  }

  lemma CallAdvances(w: World, id: Id, now: Time)
    requires Shaped(w.store) && Undisturbed(w, id, now) && OnPath(w, id, w.workers[id].pc)
    requires var pc := w.workers[id].pc; pc.Checking? || pc.Registering? || pc.Resuming? || pc.Reading? || pc.Previewing?
    ensures var u := Acts(w, NextMove(w, id, now), id); Shaped(u.store) && Advanced(w, u, id, now)
  {
    hide RunClaimCurrent, Advanced, Shaped;
    var pc := w.workers[id].pc;
    match pc {
      case Checking(next) => StaysPutTo(w, id, now, next);
      case Registering => StaysPutTo(w, id, now, Resuming(w.acked));
      case Resuming(_) => ClaimListed(w, id, now); StaysPutTo(w, id, now, Beating(Reading));
      case Reading => StaysPutTo(w, id, now, Summarizing);
      case Previewing(work) =>
        var arm := Marking(work, Arm, None);
        assert OnPath(w, id, arm) && OnPath(w, id, Checking(arm));
        assert MovesLeft(Checking(arm)) == 4;
        StaysPutTo(w, id, now, Beating(Checking(arm)));
    }
  }

  lemma ClaimListed(w: World, id: Id, now: Time)
    requires Shaped(w.store) && Undisturbed(w, id, now)
    ensures Listed(w.store, id.0)
  {
  }

  lemma SummarizeAdvances(w: World, id: Id, now: Time)
    requires Shaped(w.store) && Undisturbed(w, id, now) && w.workers[id].pc == Summarizing
    ensures var u := Acts(w, NextMove(w, id, now), id); Shaped(u.store) && Advanced(w, u, id, now)
  {
    hide RunClaimCurrent, Advanced;
    var made := Digest(w.acked, w.acked + 1 + |w.issued|, |w.issued|, |w.issued|);
    var pc := Preparing(WorkOn(|w.issued|, made), 0, None);
    assert w.store == w.store.(runtimes := w.store.runtimes);
    MovesTo(w, w.store, w.issued + [made], id, now, pc);
    assert w.(store := w.store, issued := w.issued + [made]) == w.(issued := w.issued + [made]);
  }

  lemma ReadAdvances(w: World, id: Id, now: Time)
    requires Shaped(w.store) && id in w.workers && Undisturbed(w, id, now) && OnPath(w, id, w.workers[id].pc)
    requires Writes(w.workers[id].pc) && w.workers[id].pc.revision.None?
    ensures var u := Acts(w, NextMove(w, id, now), id); Shaped(u.store) && Advanced(w, u, id, now)
  {
    hide Undisturbed, RunClaimCurrent, Advanced, OnPath, MovesLeft, WriteOf, CursorOf, Shaped, Acts, NextMove;
    ClaimListed(w, id, now);
    var pc := w.workers[id].pc;
    ReadLeads(w, id, pc);
    ReadActs(w, id, now);
    StaysPutTo(w, id, now, WithRevision(pc, Some(CursorOf(w.store, id.0, WriteOf(w.issued, pc).0).revision)));
  }

  lemma ReadActs(w: World, id: Id, now: Time)
    requires Shaped(w.store) && id in w.workers && Listed(w.store, id.0)
    requires Writes(w.workers[id].pc) && w.workers[id].pc.revision.None?
    ensures Acts(w, NextMove(w, id, now), id)
         == At(w, id, WithRevision(w.workers[id].pc, Some(CursorOf(w.store, id.0, WriteOf(w.issued, w.workers[id].pc).0).revision)))
  {
    hide WriteOf, CursorOf, Shaped;
  }

  lemma ReadLeads(w: World, id: Id, pc: Pc)
    requires Writes(pc) && pc.revision.None? && OnPath(w, id, pc)
    ensures var next := WithRevision(pc, Some(CursorOf(w.store, id.0, WriteOf(w.issued, pc).0).revision));
            OnPath(w, id, next) && MovesLeft(next) < MovesLeft(pc)
  {
    hide CursorOf;
  }

  lemma WriteKeepsClaim(w: World, id: Id, now: Time, name: CursorName, value: Option<CursorValue>)
    requires Shaped(w.store) && Undisturbed(w, id, now)
    ensures var r := UpdateCursor(w.store, id.0, name, value, CursorOf(w.store, id.0, name).revision, w.workers[id].owner, id.1, now);
            && r.Ok? && Shaped(r.state) && r.state == w.store.(cursors := r.state.cursors)
            && RunClaimCurrent(r.state, ClaimOf(w, id), now)
  {
  }

  /** The worker goes on to `pc` after a write, or a send, of its own. */
  lemma ChangesTo(w: World, s: State, commits: seq<Commit>, id: Id, now: Time, pc: Pc)
    requires Shaped(w.store) && Shaped(s) && Undisturbed(w, id, now)
    requires s == w.store.(cursors := s.cursors) && RunClaimCurrent(s, ClaimOf(w, id), now)
    requires var u := w.(commits := commits);
             && NamesKept(w, u)
             && forall c | 0 <= c < |w.commits| && (w.commits[c].job != id.0 || w.commits[c].token != id.1) :: commits[c] == w.commits[c]
    requires var u := At(w.(store := s, commits := commits), id, pc); OnPath(u, id, pc)
    requires MovesLeft(pc) < MovesLeft(w.workers[id].pc)
    ensures Advanced(w, At(w.(store := s, commits := commits), id, pc), id, now)
  {
    hide OnPath, MovesLeft;
  }

  lemma WriteAdvances(w: World, id: Id, now: Time)
    requires Shaped(w.store) && id in w.workers && Undisturbed(w, id, now) && OnPath(w, id, w.workers[id].pc)
    requires Writes(w.workers[id].pc) && w.workers[id].pc.revision.Some?
    ensures var u := Acts(w, NextMove(w, id, now), id); Shaped(u.store) && Advanced(w, u, id, now)
  {
    hide Undisturbed, RunClaimCurrent, UpdateCursor, CursorOf, Advanced, OnPath, MovesLeft, AfterWrite;
    var pc := w.workers[id].pc;
    var (name, value) := WriteOf(w.issued, pc);
    WriteKeepsClaim(w, id, now, name, value);
    RevisionIsFresh(w, id, pc);
    var s := UpdateCursor(w.store, id.0, name, value, pc.revision.value, w.workers[id].owner, id.1, now).state;
    WriteLeads(w, id, pc);
    var commits := if pc.Marking? && pc.mark == Arm then w.commits + [Commit(id.0, id.1, pc.w.digest, Armed)] else w.commits;
    ChangesTo(w, s, commits, id, now, AfterWrite(pc));
    assert Acts(w, NextMove(w, id, now), id) == At(w.(store := s, commits := commits), id, AfterWrite(pc));
  }

  lemma RevisionIsFresh(w: World, id: Id, pc: Pc)
    requires Writes(pc) && pc.revision.Some? && OnPath(w, id, pc)
    ensures pc.revision.value == CursorOf(w.store, id.0, WriteOf(w.issued, pc).0).revision
  {
    hide CursorOf, WriteOf;
  }

  lemma WriteLeads(w: World, id: Id, pc: Pc)
    requires Writes(pc) && pc.revision.Some? && OnPath(w, id, pc)
    ensures MovesLeft(AfterWrite(pc)) < MovesLeft(pc)
    ensures forall u: World | u.acked == w.acked && w.issued <= u.issued :: OnPath(u, id, AfterWrite(pc))
  {
    hide CursorOf, WriteOf;
    if pc.Preparing? { PrepareLeads(w, id, pc); }
  }

  lemma PrepareLeads(w: World, id: Id, pc: Pc)
    requires pc.Preparing? && pc.revision.Some? && OnPath(w, id, pc)
    ensures MovesLeft(AfterWrite(pc)) < MovesLeft(pc)
    ensures forall u: World | u.acked == w.acked && w.issued <= u.issued :: OnPath(u, id, AfterWrite(pc))
  {
    if pc.k == 6 {
      var last := Previewing(pc.w);
      assert MovesLeft(Checking(last)) == 7;
      forall u: World | u.acked == w.acked && w.issued <= u.issued ensures OnPath(u, id, Beating(Checking(last))) {
        assert OnPath(u, id, last) && OnPath(u, id, Checking(last));
      }
    }
  }

  /** The send goes out: the commit of the claim is launched. */
  lemma ApplyAdvances(w: World, id: Id, now: Time)
    requires WorldValid(w) && Shaped(w.store) && id in w.workers && Undisturbed(w, id, now)
    requires OnPath(w, id, w.workers[id].pc) && w.workers[id].pc.Applying?
    ensures var u := Acts(w, NextMove(w, id, now), id); Shaped(u.store) && Advanced(w, u, id, now)
  {
    hide WorldValid, Undisturbed, RunClaimCurrent, Advanced;
    ArmedCommit(w, id);
    var c := TheCommit(w, id);
    var commits := w.commits[c := w.commits[c].(fate := Launched)];
    StillCurrent(w, id, now);
    assert w.store == w.store.(cursors := w.store.cursors) && w.(store := w.store, commits := commits) == w.(commits := commits);
    ChangesTo(w, w.store, commits, id, now, Awaiting(w.workers[id].pc.w));
  }

  lemma ArmedCommit(w: World, id: Id)
    requires WorldValid(w) && id in w.workers && w.workers[id].pc.Applying?
    ensures HasCommit(w, id)
  {
    hide Valid, FeedSound, CommitsSound, RecordsSound, WorkersSound;
    ApplyingSends(w, id);
  }

  lemma StillCurrent(w: World, id: Id, now: Time)
    requires Shaped(w.store) && Undisturbed(w, id, now)
    ensures id in w.workers && RunClaimCurrent(w.store, ClaimOf(w, id), now)
  {
  }

  lemma NextAdvances(cal: Calendar, w: World, id: Id, now: Time)
    requires WorldValid(w) && Shaped(w.store) && id in w.workers && Undisturbed(w, id, now) && OnPath(w, id, w.workers[id].pc)
    requires !w.workers[id].pc.Awaiting?
    ensures var u := Do(cal, w, NextMove(w, id, now)); Shaped(u.store) && Advanced(w, u, id, now)
  {
    hide WorldValid, Undisturbed, Advanced, OnPath, Acts, Shaped;
    var pc := w.workers[id].pc;
    PathCases(w, id, pc);
    if pc.Beating? { BeatAdvances(w, id, now); }
    else if Writes(pc) { if pc.revision.None? { ReadAdvances(w, id, now); } else { WriteAdvances(w, id, now); } }
    else if pc.Summarizing? { SummarizeAdvances(w, id, now); }
    else if pc.Applying? { ApplyAdvances(w, id, now); }
    else { CallAdvances(w, id, now); }
  }

  lemma PathCases(w: World, id: Id, pc: Pc)
    requires OnPath(w, id, pc) && !pc.Awaiting?
    ensures || pc.Beating? || Writes(pc) || pc.Summarizing? || pc.Applying?
            || pc.Checking? || pc.Registering? || pc.Resuming? || pc.Reading? || pc.Previewing?
  {
  }

  /** An undisturbed worker gets its send out: the commit of its claim is launched, and its digest starts
      at the acknowledgement. */
  ghost predicate SentNext(w: World, u: World, id: Id, now: Time)
    requires Shaped(u.store)
  {
    && Undisturbed(u, id, now) && Alone(w, u, id) && NamesKept(w, u)
    && exists c :: 0 <= c < |u.commits| && u.commits[c].job == id.0 && u.commits[c].token == id.1 && u.commits[c].fate == Launched
                   && u.commits[c].digest < |u.issued| && u.issued[u.commits[c].digest].from == w.acked
  }

  lemma AwaitingSent(w: World, u: World, id: Id, now: Time)
    requires WorldValid(u) && Shaped(u.store) && Undisturbed(u, id, now) && Alone(w, u, id) && NamesKept(w, u)
    requires u.workers[id].pc.Awaiting? && OnPath(u, id, u.workers[id].pc)
    ensures SentNext(w, u, id, now)
  {
    hide Valid, FeedSound, CommitsSound, RecordsSound, RunClaimCurrent;
    assert WorkerSound(u, id);
    var c := TheCommit(u, id);
    assert u.commits[c].fate == Launched;
  }

  lemma AloneReflexive(w: World, id: Id)
    ensures Alone(w, w, id) && NamesKept(w, w)
  {
    assert w.store == w.store.(runtimes := w.store.runtimes, cursors := w.store.cursors);
  }

  lemma {:induction false} WorkerSends(cal: Calendar, w: World, id: Id, now: Time) returns (moves: seq<Move>)
    requires WorldValid(w) && Shaped(w.store) && id in w.workers && Undisturbed(w, id, now) && OnPath(w, id, w.workers[id].pc)
    ensures Shaped(Story(cal, w, moves).store) && SentNext(w, Story(cal, w, moves), id, now)
    ensures forall m | m in moves :: NoArchive(m)
    decreases MovesLeft(w.workers[id].pc)
  {
    hide WorldValid, OnPath, Undisturbed, Alone, NamesKept, SentNext, Do, MovesLeft, Shaped;
    if w.workers[id].pc.Awaiting? {
      AloneReflexive(w, id);
      AwaitingSent(w, w, id, now);
      moves := [];
    } else {
      var m := NextMove(w, id, now);
      NextAdvances(cal, w, id, now);
      DoKeeps(cal, w, m);
      var u := Do(cal, w, m);
      StillThere(u, id, now);
      var rest := WorkerSends(cal, u, id, now);
      moves := [m] + rest;
      assert moves[0] == m && moves[1..] == rest;
      SentBefore(w, u, Story(cal, u, rest), id, now);
    }
  }

  lemma StillThere(w: World, id: Id, now: Time)
    requires Shaped(w.store) && Undisturbed(w, id, now)
    ensures id in w.workers
  {
  }

  lemma SentBefore(w: World, u: World, v: World, id: Id, now: Time)
    requires Shaped(v.store) && Alone(w, u, id) && NamesKept(w, u) && SentNext(u, v, id, now)
    ensures SentNext(w, v, id, now)
  {
    hide Undisturbed;
  }
}

/** What every reachable state of the digest delivery satisfies. */
module CrmInvariant {
  import opened Options
  import opened Tables
  import opened Invariants
  import opened CrmDigest

  function PhaseOf(s: State, j: nat): Option<Phase> {
    match Value(s, j, DeliveryState)
    case Some(PhaseText(p)) => Some(p)
    case _ => None
  }

  predicate InFlight(s: State, j: nat) {
    PhaseOf(s, j) in {Some(Sending), Some(SentUnverified), Some(DeliveredUnacked)}
  }

  /** The digest the record of a job names. */
  function Recorded(s: State, j: nat): Option<nat> {
    match Value(s, j, PendingDigestId)
    case Some(DigestText(d)) => Some(d)
    case _ => None
  }

  /** All pending cursors of the job belong to digest `d`. */
  predicate Whole(w: World, j: nat, d: nat) {
    && d < |w.issued|
    && Value(w.store, j, PendingAck) == Some(AckText(d))
    && Value(w.store, j, PendingDigestId) == Some(DigestText(d))
    && Value(w.store, j, PendingContentHash) == Some(HashText(w.issued[d].content))
    && Value(w.store, j, PendingThrough) == Some(NumberText(w.issued[d].through))
    && Value(w.store, j, TextHash) == Some(HashText(w.issued[d].text))
  }

  predicate MessageNoted(w: World, j: nat, d: nat) {
    match Value(w.store, j, MessageId)
    case Some(NumberText(m)) => m > 0 && Carries(w, m, d)
    case _ => false
  }

  /** No torn record: whenever a state is set, the record is that of one digest, and from
      `sent_unverified` on its message was delivered. */
  predicate RecordSound(w: World, j: nat) {
    && (Value(w.store, j, DeliveryState).Some? ==>
          && PhaseOf(w.store, j).Some?
          && Recorded(w.store, j).Some?
          && Whole(w, j, Recorded(w.store, j).value))
    && (PhaseOf(w.store, j) in {Some(SentUnverified), Some(DeliveredUnacked)} ==> MessageNoted(w, j, Recorded(w.store, j).value))
    && (PhaseOf(w.store, j) == Some(DeliveredUnacked) ==> Recorded(w.store, j).value in w.verified)
  }

  predicate Live(c: Commit) {
    c.fate != Retracted
  }

  predicate Known(w: World, c: nat)
    requires c < |w.commits|
  {
    var commit := w.commits[c];
    && commit.digest < |w.issued|
    && commit.job < |w.store.jobs| == |w.store.runtimes|
    && commit.token <= w.store.runtimes[commit.job].fence
  }

  ghost predicate LastOf(w: World, c: nat, j: nat) {
    && c < |w.commits|
    && w.commits[c].job == j
    && forall k | c < k < |w.commits| :: w.commits[k].job != j
  }

  /** A live commit is acknowledged, or it is the last one of its job and the record still names it. */
  ghost predicate CommitSound(w: World, c: nat)
    requires c < |w.commits| && Known(w, c)
  {
    var commit := w.commits[c];
    Live(commit) ==>
      || w.issued[commit.digest].through <= w.acked
      || (InFlight(w.store, commit.job) && Recorded(w.store, commit.job) == Some(commit.digest) && LastOf(w, c, commit.job))
  }

  /** Every live commit of the job ends at or before event `e`. */
  ghost predicate CoveredBy(w: World, j: nat, e: nat) {
    forall c | 0 <= c < |w.commits| && w.commits[c].job == j && Live(w.commits[c]) && w.commits[c].digest < |w.issued| ::
      w.issued[w.commits[c].digest].through <= e
  }

  predicate WorkSound(w: World, work: Work) {
    && work.digest < |w.issued|
    && work.ack == work.digest
    && work.through == w.issued[work.digest].through
    && work.text == w.issued[work.digest].text
  }

  /** The first `k` writes of a preparation are in the record. */
  predicate Written(w: World, j: nat, work: Work, k: nat)
    requires work.digest < |w.issued|
  {
    forall i | 0 <= i < k < 7 ::
      Value(w.store, j, PrepareWrite(work, w.issued[work.digest].content, i).0) == PrepareWrite(work, w.issued[work.digest].content, i).1
  }

  ghost predicate Holding(w: World, j: nat, phase: Phase, digest: nat) {
    PhaseOf(w.store, j) == Some(phase) && Recorded(w.store, j) == Some(digest)
  }

  /** Ready to arm: the record is prepared, without a message, and the digest starts where every live commit has
      ended. */
  ghost predicate Ready(w: World, j: nat, work: Work) {
    && work.digest < |w.issued|
    && CoveredBy(w, j, w.issued[work.digest].from)
    && Holding(w, j, Prepared, work.digest)
    && Value(w.store, j, MessageId).None?
  }

  /** The send that this claim has armed and not yet resolved. */
  ghost predicate Sends(w: World, id: Id, work: Work, fate: Fate) {
    && HasCommit(w, id)
    && w.commits[TheCommit(w, id)].digest == work.digest
    && w.commits[TheCommit(w, id)].fate == fate
  }

  /** What a worker relies on.  `latest` says that no newer claim of its job exists: only then does the
      record of the job belong to it. */
  ghost predicate Sound(w: World, id: Id, pc: Pc, latest: bool)
    decreases pc
  {
    var j := id.0;
    match pc
    case Beating(next) => Sound(w, id, next, latest)
    case Checking(next) => Sound(w, id, next, latest)
    case Registering => !HasCommit(w, id)
    case Resuming(seen) => seen <= w.acked && !HasCommit(w, id)
    case LookingUp(work) =>
      !HasCommit(w, id) && WorkSound(w, work) && !work.own && (latest ==> Holding(w, j, Sending, work.digest))
    case Reading => !HasCommit(w, id) && (latest ==> Idle(w, j))
    case Summarizing => !HasCommit(w, id) && (latest ==> Idle(w, j))
    case Preparing(work, k, _) =>
      && !HasCommit(w, id) && WorkSound(w, work) && work.own && k < 7
      && (latest ==> CoveredBy(w, j, w.issued[work.digest].from) && Value(w.store, j, DeliveryState).None? && Written(w, j, work, k))
    case Previewing(work) => !HasCommit(w, id) && WorkSound(w, work) && work.own && (latest ==> Ready(w, j, work))
    case Marking(work, mark, _) => WorkSound(w, work) && MarkSound(w, id, work, mark, latest)
    case Applying(work) => WorkSound(w, work) && work.own && Sends(w, id, work, Armed) && (latest ==> Waits(w, id, work))
    case Awaiting(work) => WorkSound(w, work) && work.own && Sends(w, id, work, Launched) && (latest ==> Waits(w, id, work))
    case ReadingBack(work, m) =>
      && WorkSound(w, work) && Carries(w, m, work.digest) && (!work.own ==> !HasCommit(w, id))
      && (latest ==> Holding(w, j, SentUnverified, work.digest) || Holding(w, j, DeliveredUnacked, work.digest))
    case Acking(work) =>
      && WorkSound(w, work) && work.digest in w.verified && (!work.own ==> !HasCommit(w, id))
      && (latest ==> Holding(w, j, DeliveredUnacked, work.digest))
    case AwaitingAck(work) =>
      && WorkSound(w, work) && work.digest in w.verified && (!work.own ==> !HasCommit(w, id))
      && (latest ==> Holding(w, j, DeliveredUnacked, work.digest))
    case Clearing(k, finish, _) =>
      && k < 7 && (!finish ==> !HasCommit(w, id))
      && (latest ==> CoveredBy(w, j, w.acked) && (k > 0 ==> Value(w.store, j, DeliveryState).None?))
    case Stopped => true
  }

  ghost predicate MarkSound(w: World, id: Id, work: Work, mark: Mark, latest: bool) {
    var j := id.0;
    match mark
    case Arm => !HasCommit(w, id) && work.own && (latest ==> Ready(w, j, work))
    case Disarm =>
      && work.own && work.digest < |w.issued|
      && (latest ==> Holding(w, j, Sending, work.digest) && CoveredBy(w, j, w.acked))
    case NoteMessage(m) =>
      && Carries(w, m, work.digest) && (!work.own ==> !HasCommit(w, id))
      && (latest ==> Holding(w, j, Sending, work.digest))
    case NoteSent(m) =>
      && Carries(w, m, work.digest) && (!work.own ==> !HasCommit(w, id))
      && (latest ==> Holding(w, j, Sending, work.digest) && Value(w.store, j, MessageId) == Some(NumberText(m)))
    case NoteDelivered =>
      && work.digest in w.verified && (!work.own ==> !HasCommit(w, id))
      && (latest ==> Holding(w, j, SentUnverified, work.digest) || Holding(w, j, DeliveredUnacked, work.digest))
  }

  /** Nothing pending, and everything sent is acknowledged. */
  ghost predicate Idle(w: World, j: nat) {
    CoveredBy(w, j, w.acked) && Value(w.store, j, DeliveryState).None?
  }

  /** The record names the armed send, and it is the last one of the job. */
  ghost predicate Waits(w: World, id: Id, work: Work) {
    Holding(w, id.0, Sending, work.digest) && HasCommit(w, id) && LastOf(w, TheCommit(w, id), id.0)
  }

  ghost predicate WorkerSound(w: World, id: Id)
    requires id in w.workers
  {
    && id.0 < |w.store.jobs| == |w.store.runtimes|
    && id.1 <= w.store.runtimes[id.0].fence
    && Sound(w, id, w.workers[id].pc, id.1 == w.store.runtimes[id.0].fence)
  }

  /** The commits of one job follow one another without overlap. */
  ghost predicate Chained(w: World) {
    forall a, b | 0 <= a < b < |w.commits| && w.commits[a].job == w.commits[b].job && Live(w.commits[a]) && Live(w.commits[b])
                  && w.commits[a].digest < |w.issued| && w.commits[b].digest < |w.issued| ::
      w.issued[w.commits[a].digest].through <= w.issued[w.commits[b].digest].from
  }

  /** Every acknowledged event is covered by a digest whose message was read back. */
  ghost predicate AckedVerified(w: World) {
    && w.start <= w.acked
    && (forall e | w.start < e <= w.acked :: CoversVerified(w, e))
  }

  ghost predicate CoversVerified(w: World, e: nat) {
    exists d :: d in w.verified && d < |w.issued| && w.issued[d].from < e <= w.issued[d].through
  }

  ghost predicate TokensUnique(w: World) {
    forall a, b | 0 <= a < b < |w.commits| && w.commits[a].job == w.commits[b].job :: w.commits[a].token != w.commits[b].token
  }

  ghost predicate FeedSound(w: World) {
    && (forall d | 0 <= d < |w.issued| :: w.issued[d].from < w.issued[d].through && w.issued[d].from <= w.acked)
    && (forall d | d in w.ackRequests :: d in w.verified)
    && (forall m | 0 <= m < |w.messages| :: w.messages[m] < |w.issued|)
    && (forall d | d in w.verified :: d < |w.issued| && d in w.messages)
    && AckedVerified(w)
  }

  ghost predicate CommitsSound(w: World) {
    && (forall c | 0 <= c < |w.commits| :: Known(w, c) && CommitSound(w, c))
    && TokensUnique(w)
    && Chained(w)
  }

  ghost predicate RecordsSound(w: World) {
    && (forall key | key in w.store.cursors :: key.0 < |w.store.jobs|)
    && (forall j | 0 <= j < |w.store.jobs| :: RecordSound(w, j))
  }

  ghost predicate WorkersSound(w: World) {
    forall id | id in w.workers :: WorkerSound(w, id)
  }

  ghost predicate WorldValid(w: World) {
    Valid(w.store) && FeedSound(w) && CommitsSound(w) && RecordsSound(w) && WorkersSound(w)
  }
}

/** The delivery of CRM digests: many workers over one store, one CRM feed and one Telegram bridge.

Each call a worker makes is one move, so a worker may pause or crash between any two calls.  A reply
may be lost, a request may take effect long after its caller gave up, and the rest of the store runs
in between.  `commits`, `verified` and `start` record history; nothing reads them. */
module CrmDigest {
  import opened Options
  import opened Tables
  import opened Steps

  /** What the feed covers: the events after `from` up to `through`.  Different digests may have the
      same text, and so the same text hash. */
  datatype Digest = Digest(from: nat, through: nat, content: nat, text: nat)

  /** One write of the state `sending`, and what became of the send it announced. */
  datatype Fate = Armed | Launched | Retracted

  datatype Commit = Commit(job: nat, token: nat, digest: nat, fate: Fate)

  /** What a worker knows of the digest it is delivering. */
  datatype Work = Work(digest: nat, ack: nat, through: int, text: nat, own: bool)

  datatype Mark =
    | Arm                          // delivery_state := sending
    | Disarm                       // delivery_state := prepared, after a refusal that sent nothing
    | NoteMessage(message: nat)    // notification_message_id := message
    | NoteSent(message: nat)       // delivery_state := sent_unverified
    | NoteDelivered                // delivery_state := delivered_unacked

  datatype Pc =
    | Beating(next: Pc)
    | Checking(next: Pc)
    | Registering
    | Resuming(seen: nat)
    | LookingUp(w: Work)
    | Reading
    | Summarizing
    | Preparing(w: Work, k: nat, revision: Option<nat>)
    | Previewing(w: Work)
    | Marking(w: Work, mark: Mark, revision: Option<nat>)
    | Applying(w: Work)
    | Awaiting(w: Work)
    | ReadingBack(w: Work, message: nat)
    | Acking(w: Work)
    | AwaitingAck(w: Work)
    | Clearing(k: nat, finish: bool, revision: Option<nat>)
    | Stopped

  datatype Worker = Worker(owner: Owner, run: nat, revision: nat, pc: Pc)

  datatype World = World(
    store: State,
    workers: map<(nat, nat), Worker>,   // one for each claim: job and token
    acked: nat,
    issued: seq<Digest>,
    ackRequests: set<nat>,
    messages: seq<nat>,                 // message number m carries digest messages[m - 1]
    commits: seq<Commit>,
    verified: set<nat>,
    start: nat)

  const CURSOR_NAMES := [DeliveryState, PendingAck, PendingDigestId, PendingContentHash, PendingThrough, MessageId, TextHash]

  // ----- What a worker writes, and where it goes next

  function Value(s: State, j: nat, name: CursorName): Option<CursorValue> {
    CursorOf(s, j, name).value
  }

  predicate Writes(pc: Pc) {
    || (pc.Preparing? && pc.k < 7)
    || pc.Marking?
    || (pc.Clearing? && pc.k < 7)
  }

  /** The seven writes that prepare a delivery: the state comes last. */
  function PrepareWrite(w: Work, content: nat, k: nat): (CursorName, Option<CursorValue>)
    requires k < 7
  {
    if k == 0 then (PendingAck, Some(AckText(w.ack)))
    else if k == 1 then (PendingDigestId, Some(DigestText(w.digest)))
    else if k == 2 then (PendingContentHash, Some(HashText(content)))
    else if k == 3 then (PendingThrough, Some(NumberText(w.through)))
    else if k == 4 then (TextHash, Some(HashText(w.text)))
    else if k == 5 then (MessageId, None)
    else (DeliveryState, Some(PhaseText(Prepared)))
  }

  function MarkWrite(mark: Mark): (CursorName, Option<CursorValue>) {
    match mark
    case Arm => (DeliveryState, Some(PhaseText(Sending)))
    case Disarm => (DeliveryState, Some(PhaseText(Prepared)))
    case NoteMessage(m) => (MessageId, Some(NumberText(m)))
    case NoteSent(_) => (DeliveryState, Some(PhaseText(SentUnverified)))
    case NoteDelivered => (DeliveryState, Some(PhaseText(DeliveredUnacked)))
  }

  function WriteOf(issued: seq<Digest>, pc: Pc): (CursorName, Option<CursorValue>)
    requires Writes(pc)
  {
    match pc
    case Preparing(w, k, _) => PrepareWrite(w, if w.digest < |issued| then issued[w.digest].content else 0, k)
    case Marking(_, mark, _) => MarkWrite(mark)
    case Clearing(k, _, _) => (CURSOR_NAMES[k], None)
  }

  function AfterWrite(pc: Pc): Pc
    requires Writes(pc)
  {
    match pc
    case Preparing(w, k, _) =>
      if k < 6 then Preparing(w, k + 1, None) else Beating(Checking(Previewing(w)))
    case Marking(w, mark, _) =>
      (match mark
       case Arm => Applying(w)
       case Disarm => Stopped
       case NoteMessage(m) => Marking(w, NoteSent(m), None)
       case NoteSent(m) => ReadingBack(w, m)
       case NoteDelivered => Acking(w))
    case Clearing(k, finish, _) =>
      if k < 6 then Clearing(k + 1, finish, None) else if finish then Stopped else Beating(Reading)
  }

  function WithRevision(pc: Pc, revision: Option<nat>): Pc
    requires Writes(pc)
  {
    match pc
    case Preparing(w, k, _) => Preparing(w, k, revision)
    case Marking(w, mark, _) => Marking(w, mark, revision)
    case Clearing(k, finish, _) => Clearing(k, finish, revision)
  }

  /** What a claimed run does with the delivery an earlier run may have left behind. */
  function Resume(s: State, j: nat, seen: nat): Pc {
    match Value(s, j, DeliveryState)
    case None => Beating(Reading)
    case Some(PhaseText(phase)) =>
      (match Value(s, j, PendingThrough)
       case Some(NumberText(through)) =>
         if seen >= through || phase == Prepared then Clearing(0, false, None)
         else
           (match (Value(s, j, PendingAck), Value(s, j, PendingDigestId), Value(s, j, TextHash))
            case (Some(AckText(ack)), Some(DigestText(digest)), Some(HashText(text))) =>
              var w := Work(digest, ack, through, text, false);
              if phase == Sending then LookingUp(w)
              else
                (match Value(s, j, MessageId)
                 case Some(NumberText(m)) => if m > 0 then ReadingBack(w, m) else Stopped
                 case _ => Stopped)
            case _ => Stopped)
       case _ => Stopped)
    case Some(_) => Stopped
  }

  // ----- Moves

  type Id = (nat, nat)

  datatype Move =
    | Elsewhere(a: Action)
    | Claims(owner: Owner, seconds: int, now: Time, pick: Option<nat>, due: seq<nat>)
    | Crashes(id: Id)
    | Beats(id: Id, seconds: int, now: Time)
    | Checks(id: Id, now: Time)
    | Registers(id: Id, seen: nat)
    | Resumes(id: Id)
    | LooksUp(id: Id, message: nat)
    | Reads(id: Id, events: bool)
    | Summarizes(id: Id, digest: nat, made: Digest)
    | Previews(id: Id, token: bool)
    | ReadsRevision(id: Id)
    | WritesCursor(id: Id, now: Time)
    | Applies(id: Id, refused: bool)
    | Replies(id: Id, message: nat)
    | ReadsBack(id: Id, verified: bool)
    | RequestsAck(id: Id)
    | HearsAck(id: Id)
    | Delivers(commit: nat)
    | Acknowledges(digest: nat)

  function At(w: World, id: Id, pc: Pc): World
    requires id in w.workers
  {
    w.(workers := w.workers[id := w.workers[id].(pc := pc)])
  }

  /** A message the bridge delivered for this digest. */
  predicate Carries(w: World, message: nat, digest: nat) {
    1 <= message <= |w.messages| && w.messages[message - 1] == digest
  }

  /** The commit of this claim: a claim arms at most one send. */
  predicate CommitOf(w: World, id: Id, c: nat) {
    c < |w.commits| && w.commits[c].job == id.0 && w.commits[c].token == id.1
  }

  ghost predicate HasCommit(w: World, id: Id) {
    exists c :: CommitOf(w, id, c)
  }

  ghost function TheCommit(w: World, id: Id): (c: nat)
    requires HasCommit(w, id)
    ensures CommitOf(w, id, c)
  {
    var c :| CommitOf(w, id, c);
    c
  }

  /** A reply that is lost, or that the worker rejects, stops the worker. */
  ghost function Acts(w: World, m: Move, id: Id): World
    requires id in w.workers && Shaped(w.store)
  {
    var me := w.workers[id];
    match m
    case Crashes(_) => At(w, id, Stopped)
    case Beats(_, seconds, now) =>
      if !me.pc.Beating? then w
      else
        var (s, alive) := Heartbeat(w.store, id.0, me.run, me.owner, id.1, seconds, now);
        At(w.(store := s), id, if alive then me.pc.next else Stopped)
    case Checks(_, now) =>
      if !me.pc.Checking? then w
      else At(w, id, if RunClaimCurrent(w.store, Claim(me.run, id.0, me.owner, me.revision, id.1), now) then me.pc.next else Stopped)
    case Registers(_, seen) => if me.pc != Registering || seen > w.acked then w else At(w, id, Resuming(seen))
    case Resumes(_) =>
      if !me.pc.Resuming? then w
      else At(w, id, if Listed(w.store, id.0) then Resume(w.store, id.0, me.pc.seen) else Stopped)
    case LooksUp(_, message) =>
      if !me.pc.LookingUp? then w
      else At(w, id, if Carries(w, message, me.pc.w.digest) then Marking(me.pc.w, NoteMessage(message), None) else Stopped)
    case Reads(_, events) => if me.pc != Reading then w else At(w, id, if events then Summarizing else Stopped)
    case Summarizes(_, digest, made) =>
      if me.pc != Summarizing then w
      else if digest < |w.issued| && w.issued[digest].from == w.acked then
        At(w, id, Preparing(WorkOn(digest, w.issued[digest]), 0, None))
      else if digest == |w.issued| && made.from == w.acked < made.through then
        At(w.(issued := w.issued + [made]), id, Preparing(WorkOn(digest, made), 0, None))
      else w
    case Previews(_, token) =>
      if !me.pc.Previewing? then w
      else At(w, id, if token then Beating(Checking(Marking(me.pc.w, Arm, None))) else Stopped)
    case ReadsRevision(_) =>
      if !Writes(me.pc) then w
      else At(w, id, if Listed(w.store, id.0) then WithRevision(me.pc, Some(CursorOf(w.store, id.0, WriteOf(w.issued, me.pc).0).revision)) else Stopped)
    case WritesCursor(_, now) =>
      if !Writes(me.pc) || me.pc.revision.None? then w
      else
        var (name, value) := WriteOf(w.issued, me.pc);
        (match UpdateCursor(w.store, id.0, name, value, me.pc.revision.value, me.owner, id.1, now)
         case Err(_) => At(w, id, Stopped)
         case Ok(s, _) =>
           var w' := At(w.(store := s), id, AfterWrite(me.pc));
           if me.pc.Marking? && me.pc.mark == Arm
           then w'.(commits := w.commits + [Commit(id.0, id.1, me.pc.w.digest, Armed)])
           else w')
    case Applies(_, refused) =>
      if !me.pc.Applying? || !HasCommit(w, id) then w
      else
        var c := TheCommit(w, id);
        var w' := w.(commits := w.commits[c := w.commits[c].(fate := if refused then Retracted else Launched)]);
        At(w', id, if refused then Marking(me.pc.w, Disarm, None) else Awaiting(me.pc.w))
    case Replies(_, message) =>
      if !me.pc.Awaiting? then w
      else At(w, id, if Carries(w, message, me.pc.w.digest) then Beating(Marking(me.pc.w, NoteMessage(message), None)) else Stopped)
    case ReadsBack(_, verified) =>
      if !me.pc.ReadingBack? then w
      else if !verified || me.pc.message == 0 || me.pc.message > |w.messages| then At(w, id, Stopped)
      else
        var mark := Marking(me.pc.w, NoteDelivered, None);
        At(w.(verified := w.verified + {w.messages[me.pc.message - 1]}), id, if me.pc.w.own then Beating(mark) else mark)
    case RequestsAck(_) =>
      if !me.pc.Acking? then w
      else At(w.(ackRequests := w.ackRequests + {me.pc.w.ack}), id, AwaitingAck(me.pc.w))
    case HearsAck(_) =>
      if !me.pc.AwaitingAck? then w
      else At(w, id, if w.acked >= me.pc.w.through then Clearing(0, me.pc.w.own, None) else Stopped)
    case _ => w
  }

  function WorkOn(digest: nat, d: Digest): Work {
    Work(digest, digest, d.through, d.text, true)
  }

  /** The cursors of an archived job are not found. */
  predicate Listed(s: State, j: nat) {
    j < |s.jobs| && !s.jobs[j].archived
  }

  ghost function Do(cal: Calendar, w: World, m: Move): World
    requires Shaped(w.store)
  {
    match m
    case Elsewhere(a) =>
      if a.DoClaimRun? || a.DoUpdateCursor? then w else w.(store := Step(cal, w.store, a))
    case Claims(owner, seconds, now, pick, due) =>
      var (s, claim) := ClaimRun(cal, w.store, owner, seconds, now, pick, due);
      if claim.None? then w.(store := s)
      else
        var c := claim.value;
        if c.job < |w.store.jobs| && w.store.jobs[c.job].template == CrmDigest
        then w.(store := s, workers := w.workers[(c.job, c.token) := Worker(owner, c.run, c.revision, Beating(Registering))])
        else w.(store := s)
    case Delivers(c) =>
      if c < |w.commits| && w.commits[c].fate == Launched then w.(messages := w.messages + [w.commits[c].digest]) else w
    case Acknowledges(d) =>
      if d in w.ackRequests && d < |w.issued| && w.issued[d].through > w.acked then w.(acked := w.issued[d].through) else w
    case _ => if m.id in w.workers then Acts(w, m, m.id) else w
  }
}

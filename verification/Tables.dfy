/** The tables of the automation controller, as values.

A table is a sequence and a row's identifier is its index: the store never deletes a row, and the
identifiers it draws at random are never reused.  Times are whole seconds and may run backwards. */
module Tables {
  import opened Options

  type Time = int
  type Owner = nat      // digest of the daemon that holds a lease
  type Code = string    // technical result and error codes

  datatype Template = CrmDigest | M1Duty | M2Duty

  datatype Window = AllDay | Daily(start: nat, end: nat)

  datatype Schedule = Schedule(everySeconds: int, zone: string, window: Window)

  /** What an operator asked for. */
  datatype Job = Job(
    template: Template,
    desiredOn: bool,
    schedule: Schedule,
    revision: nat,
    updatedAt: Time,
    archived: bool)

  datatype Lease = Lease(owner: Owner, until: Time)

  datatype Incident = Incident(id: nat, code: Code)

  datatype ActualState = Disabled | Idle | Waiting | Running | Stopping | Errored | Archived

  /** What the scheduler has made of it: one row for each job, at the same index. */
  datatype Runtime = Runtime(
    actual: ActualState,
    nextRun: Option<Time>,
    lease: Option<Lease>,
    fence: nat,
    errorCode: Option<Code>,
    incident: Option<Incident>,
    applied: nat)

  datatype Trigger = Manual(command: nat) | Scheduled

  /** A run keeps the lease owner, fencing token and revision of the claim that started it. */
  datatype Grant = Grant(owner: Owner, fence: nat, revision: nat)

  datatype RunStatus = Queued | Active | Succeeded | Failed | Cancelled

  datatype Run = Run(
    job: nat,
    trigger: Trigger,
    status: RunStatus,
    requestedAt: Time,
    grant: Option<Grant>,
    coalesced: nat,
    result: Option<Code>)

  datatype CursorName =
    | DeliveryState
    | PendingAck
    | PendingDigestId
    | PendingContentHash
    | PendingThrough
    | MessageId
    | TextHash

  datatype Phase = Prepared | Sending | SentUnverified | DeliveredUnacked

  /** Cursor values are text; each constructor stands for the text one kind of value is written as. */
  datatype CursorValue =
    | PhaseText(phase: Phase)
    | AckText(ack: nat)
    | DigestText(digest: nat)
    | HashText(hash: nat)
    | NumberText(number: int)

  datatype Cursor = Cursor(value: Option<CursorValue>, revision: nat)

  datatype Notice =
    | TestNotice(command: nat)
    | ErrorAlert(incident: nat, code: Code)
    | RecoveryAlert(incident: nat, code: Code)

  datatype Transition = ToError | ToRecovery

  /** The unique idempotency key of a delivery intent. */
  datatype OutboxKey = TestKey(command: nat) | IncidentKey(incident: nat, transition: Transition)

  datatype OutboxStatus = Pending | InTransit | Sent | Undelivered | Dropped

  datatype OutboxRow = OutboxRow(
    job: nat,
    run: Option<nat>,
    notice: Notice,
    status: OutboxStatus,
    attempts: nat,
    nextAttempt: Time,
    createdAt: Time,
    lease: Option<Lease>,
    fence: nat,
    result: Option<Code>)

  function KeyOf(n: Notice): OutboxKey {
    match n
    case TestNotice(command) => TestKey(command)
    case ErrorAlert(incident, _) => IncidentKey(incident, ToError)
    case RecoveryAlert(incident, _) => IncidentKey(incident, ToRecovery)
  }

  datatype HoldReason = Release | Maintenance | Operator

  datatype Hold = Hold(
    enabled: bool,
    reason: Option<HoldReason>,
    owner: Option<Actor>,
    attempt: Option<nat>,
    revision: nat)

  datatype ActorKind = System | Crm | Telegram | Codex

  datatype Actor = Actor(kind: ActorKind, id: nat)

  datatype Operation =
    | CreateFromTemplate(template: Template, schedule: Schedule)
    | SetEnabled(job: nat, enabled: bool)
    | SetSchedule(job: nat, schedule: Schedule)
    | RunNow(job: nat)
    | TestNotification(job: nat)
    | Archive(job: nat)
    | SetGlobalHold(enabled: bool, reason: Option<HoldReason>, attempt: Option<nat>)

  /** Everything the request hash of a command covers. */
  datatype Request = Request(op: Operation, expected: int, actor: Actor)

  datatype Response =
    | NoResponse
    | Created(job: nat)
    | Changed(changed: bool)
    | Enqueued(run: nat, coalesced: bool)
    | TestQueued(outbox: nat)
    | JobArchived(revision: nat)
    | HoldSet(changed: bool, revision: nat)

  datatype Command = Command(source: ActorKind, key: string, request: Request, response: Response)

  datatype State = State(
    jobs: seq<Job>,
    runtimes: seq<Runtime>,
    runs: seq<Run>,
    cursors: map<(nat, CursorName), Cursor>,
    outbox: seq<OutboxRow>,
    commands: seq<Command>,
    hold: Hold,
    incidents: nat)

  const NO_HOLD := Hold(false, None, None, None, 0)

  const EMPTY := State([], [], [], map[], [], [], NO_HOLD, 0)

  /** The clock policy of a schedule: `active` says whether a time lies inside its window and `next`
      gives a time inside it from a given time on.  Most results hold of any such policy; Calendars says
      what the daily windows of ActiveWindow make of it. */
  datatype Calendar = Calendar(
    active: (Time, Schedule) -> bool,
    next: (Time, Schedule) -> Time)
}

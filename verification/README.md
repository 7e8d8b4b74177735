# The automation controller and its algorithms, in Dafny

This project models the AutoStop manager's automation controller and the algorithms around it, and
proves what they promise over every input, every history and every interleaving.

**The controller.** `Tables` holds the rows of the store as values, `Steps` every transaction as one
function from tables to tables, and `Store` the class whose methods update the tables in place; each
method is proved against its transaction. `Invariants` and `Preservation` give one large invariant that
every transaction keeps for any clock reading, even one that runs backwards. `Histories` and `Promises`
state what follows for whole histories: leases mirror runs, tokens fence, alerts alternate, commands take
effect once, a hold freezes, reconciliation converges. `Scheduler` is the daemon's turn over that store.
All of this holds for any clock policy; `Calendars` adds what the daily windows of `ActiveWindow` make of it.
`Outcomes` says of each transaction when it goes through and what it leaves in every row, `RunLives` how a run
comes to its end. `ArchivedJobs` and `TidierClaims` say exactly how much less than a tidier claim the store keeps at some
points, each with a history from the empty tables that shows it.

**The digest delivery.** `CrmDigest` lets any number of workers act on the store, one call a move; a
worker may crash or pause between any two calls, a reply may get lost, the feed and the Telegram bridge may
act on a request late. `CrmInvariant`, `CrmMoves`, `CrmSafety` and `CrmPromises` show that no event is covered by two
sends of a job that may have delivered, that no crash leaves a torn record, and that nothing is
acknowledged that was not read back. `CrmProgress` shows that an undisturbed worker does get its send out,
`CrmRecovery` that it first resolves what an earlier run left behind, without sending it again, completes its
own delivery when that is answered, and leaves a refused one for the next run to send. `CrmCalls` says what
every answer makes a worker do, and that no send goes out without a preview token and a current claim.
Across jobs the promise does not hold: an archive does not look at the delivery its job left unfinished, and
`CrmResend` gives a history from the empty tables in which two jobs send the same event. `CrmAcrossJobs`
shows that the promise does hold for every history in which each archive finds its job quiet: every send of
the job that may deliver is acknowledged, and none of its workers is about to arm another under a lease.
`CrmArchive` shows that this condition is exact for each archive. After an accepted archive of a digest job,
moves whose own archives are quiet can lead to two sends of one event if and only if the job was not quiet.
A lease alone does no harm, nor does a delivery in flight that is acknowledged; a worker paused between arming
and sending does, and so does one about to arm under a lease that ran out and was not swept, if its clock
reads earlier than that of the archive.

**The outbox.** `OutboxDelivery` and `OutboxSafety` treat the queued notifications the same way: a row is
sent at most once, its status is true, a blocked row never changes again. `OutboxProgress` shows that a good
claim does send its row, and only after a preview and a second look at the claim.

**The algorithms.** `JsonTree` (the acyclicity check with its explicit stack), `IncludedOperations` (the
inclusion cycle check), `PriceSample` and `WorkPrice` (public prices and the work price), `ActiveWindow`
(the next active time and its bisection), `ReconciliationSummary` (presenting and expanding a summary),
`Fitment` (three-valued criteria), `BoundedHttp` (deadlines, permits and the shutdown drain). `Options` is
the optional value they share.

## What is assumed of the surroundings

- The CRM acknowledgement only grows, and a digest covers exactly the events after the last
  acknowledgement up to its last sequence number.
- A verified lookup, read-back or send reply means that the message was delivered;
  `automation_notification_preview_stale` means that nothing was sent
  (autostop_manager/automation_jobs.py:274). Whether the bridge also recognises a repeated key is not used.
- Every daemon has a notifier, as the production daemon has (autostop_manager/automation_daemon.py:126).
- Identifiers are never reused, hashes do not collide, and a transaction is atomic.
- Times are whole seconds. Clock readings are arguments, and so is the row a query returns where its order
  leaves a choice; a predicate says which rows it may return.

## Where the code and a tidier claim part

- An archived job need not stay archived. Its archive refuses only a lease that has not run out, and neither
  the sweep nor the end of a run under the old token looks at archiving. It stays archived, whatever happens,
  exactly when the archive found no lease at all (`ArchivedJobs.ArchiveIsFinal`); otherwise the holder may
  still end its run, and any claim after the lease has run out sweeps the job into the error state
  (`ArchivedJobs.SweepWakes`, `TidierClaims.ArchivedThenErrored`).
- Finishing or cancelling checks owner and token, not the lease: a claimed run can be ended exactly while it is
  active (`TidierClaims.EndsWhileActive`), long after its lease ran out (`TidierClaims.ExpiredFinishes`).
- A queued run may be claimed while its job is out of sync (`TidierClaims.ClaimedOutOfSync`); a run that a due
  schedule starts never is (`TidierClaims.DueClaimInSync`).
- The oldest job out of sync blocks the others while it is leased, and only then (`Scheduler.HeldUpExactly`,
  `TidierClaims.LeaseHoldsUp`).
- A heartbeat may extend a lease and still report failure (`TidierClaims.ExtendsButFails`), but not to a caller
  that names the run it claimed (`TidierClaims.HeartbeatAgrees`).
- The search for the next active time never tries the date before the present one: it is exact for constant
  offsets and forward jumps, and misses an opening when the clock goes back over midnight
  (`ActiveWindow.NextActiveTime`, `ActiveWindow.MissedEvening`).
- A caller's variant that already carries reference keys does not come back from a summary; a summary expands
  to its response exactly when there is none (`ReconciliationSummary.PresentSummary`,
  `ReconciliationSummary.OwnReferencesAreLost`).
- A requirement on equipment codes that no vehicle can meet may stay unknown (`Fitment.UnmeetableIsUnknown`);
  rejection is exact if and only if the requirement can be met, the list is complete, or an excluded code is on
  it (`Fitment.CodesVerdict`).
- Alternatives that cover a month between them leave it unknown (`Fitment.SplitMonthIsUnknown`): for well-formed
  ranges unknown is inexact exactly when every day of the month fits some alternative and no single range is
  supported (`Fitment.UnknownExactly`), and rejection is always exact (`Fitment.AlternativesVerdict`).
- A CRM response that arrives but cannot be used is reported as a certain failure, although the request
  went out (`BoundedHttp.RejectedButSent`); a change reported as a certain failure was sent exactly when it is
  such a failure (`BoundedHttp.CertainFailureSent`).
- An archive looks neither at the cursors of its job nor at a worker between two calls
  (`CrmResend.EventSentTwice`, `CrmArchive.ArchiveIsSafe`).

## Model

| member | source | states |
|---|---|---|
| `Store.AutomationStore.constructor` | autostop_manager/automation_registry.py:487-560 | a new store is empty and satisfies the invariant |
| `Store.AutomationStore.CreateFromTemplate` | autostop_manager/automation_registry.py:742-804 | a job with its runtime row, unless the schedule is out of range or the template has a live job |
| `Store.AutomationStore.SetJobEnabled` | autostop_manager/automation_registry.py:806-852 | the new tables in full: revision, stopping state, cancelled queued runs; every refusal with its code |
| `Store.AutomationStore.SetJobSchedule` | autostop_manager/automation_registry.py:854-888 | a new schedule is a new revision; the same schedule changes nothing |
| `Store.AutomationStore.EnqueueRun` | autostop_manager/automation_registry.py:890-940 | a run that covers the request is counted on, else one manual run is queued |
| `Store.AutomationStore.EnqueueNotificationTest` | autostop_manager/automation_registry.py:942-977 | one test notification is queued |
| `Store.AutomationStore.ArchiveJob` | autostop_manager/automation_registry.py:1022-1088 | alerts nobody delivers are dropped; an enabled, leased or delivering job is refused |
| `Store.AutomationStore.SetHold` | autostop_manager/automation_registry.py:2158-2241 | the hold changes only for a caller its reason and owner allow, at the expected revision |
| `Store.AutomationStore.Dispatch` | autostop_manager/automation_control.py:460-568 | each operation reaches its mutation; under a hold only creation and the hold itself do |
| `Store.AutomationStore.RecordCommand` | autostop_manager/automation_registry.py:596-624 | the command row, the mutation and the response are one transaction, undone as one |
| `Store.AutomationStore.ExecuteCommand` | autostop_manager/automation_registry.py:569-624 | a known key is answered from its record or refused; a refusal leaves the tables as they were |
| `Store.AutomationStore.ReconcileNextJob` | autostop_manager/automation_registry.py:1132-1204 | exactly the reconciliation of the oldest job out of sync |
| `Store.AutomationStore.SweepExpired` | autostop_manager/automation_registry.py:1444-1485 | the loop over all jobs fails each expired claim and opens at most one incident for each |
| `Store.AutomationStore.ChooseDue` | autostop_manager/automation_registry.py:1497-1541 | the loop puts off due jobs outside their window up to the first one inside it |
| `Store.AutomationStore.ClaimNextRun` | autostop_manager/automation_registry.py:1429-1591 | sweep, choice and grant of one claim under the next token; refused lease lengths change nothing |
| `Store.AutomationStore.RunClaimIsCurrent` | autostop_manager/automation_registry.py:1593-1631 | true exactly when run, lease, token, revision and hold all agree |
| `Store.AutomationStore.CancelRunClaim` | autostop_manager/automation_registry.py:1633-1704 | ends only the claim it names and settles the job |
| `Store.AutomationStore.HeartbeatRun` | autostop_manager/automation_registry.py:1706-1738 | extends the lease it holds, and reports whether the run is still its own |
| `Store.AutomationStore.FinishRun` | autostop_manager/automation_registry.py:1740-1859 | run, incident, alert and next time of the job; wrong delays are refused |
| `Store.AutomationStore.UpdateCursor` | autostop_manager/automation_registry.py:1861-1910 | a cursor changes only under an active lease, its token and its revision |
| `Store.AutomationStore.ClaimDelivery` | autostop_manager/automation_registry.py:1932-2018 | uncertain rows are claimed for recovery only, others for one attempt |
| `Store.AutomationStore.DeliveryIsCurrent` | autostop_manager/automation_registry.py:2020-2045 | true exactly when row, lease, token, revision and hold all agree |
| `Store.AutomationStore.CancelOutboxClaim` | autostop_manager/automation_registry.py:2047-2070 | drops the row it still holds |
| `Store.AutomationStore.BlockOutboxClaim` | autostop_manager/automation_registry.py:2072-2096 | leaves the row in transit with no lease |
| `Store.AutomationStore.FinishOutbox` | autostop_manager/automation_registry.py:2098-2139 | marks the row it still holds sent, or unsent with a later attempt |
| `Preservation.StepKeeps` | autostop_manager/automation_registry.py:443-2241 | every transaction keeps the invariant, at any clock reading and whatever a query returns |
| `Preservation.ExecuteKeeps` | autostop_manager/automation_registry.py:569-624 | commands keep the invariant, with unique keys and every run-now accounted for |
| `Preservation.EnqueueRunKeeps` | autostop_manager/automation_registry.py:890-940 | at most one queued run of a job, and one more answered request |
| `Preservation.ArchiveJobKeeps` | autostop_manager/automation_registry.py:1022-1088 | an archive leaves no queued run and no wrong alert |
| `Preservation.SweepKeeps` | autostop_manager/automation_registry.py:1444-1485 | the sweep keeps claims, leases, incidents and alerts in step |
| `Preservation.ExpireClaimAlerts` | autostop_manager/automation_registry.py:1453-1485 | an expired claim queues an alert only when it opens an incident, under a key never used |
| `Preservation.GrantRunGrants` | autostop_manager/automation_registry.py:1541-1591 | a grant keeps one active run for each lease and a new token for each claim |
| `Preservation.FinishRunAlerts` | autostop_manager/automation_registry.py:1792-1819 | a finished run queues at most one alert, the one that continues the alternation |
| `Preservation.OneActive` | autostop_manager/automation_registry.py:1429-1591 | two active runs of a job are one |
| `Histories.ReachableLeases` | autostop_manager/automation_registry.py:1429-1859 | in every reachable state a job has at most one active run, its lease is set exactly then with the same owner and token, and no two claims share a token |
| `Histories.HistoryAdvances` | autostop_manager/automation_registry.py:806-1088 | revisions and tokens never fall, commands are never forgotten, a job whose revision stands is untouched |
| `Promises.NewerClaimFences` | autostop_manager/automation_registry.py:1593-1910 | after a newer claim every older token is powerless for ever: no heartbeat, finish, cancel or cursor write changes anything |
| `Promises.ClaimGranted` | autostop_manager/automation_registry.py:1541-1591 | a claim carries the next token and the present revision of an enabled job, and holds it |
| `Promises.CurrentMeansUntouched` | autostop_manager/automation_registry.py:1593-1631 | a current claim means that no schedule, enable or archive change happened since it was granted |
| `Promises.AlternatingShape` | autostop_manager/automation_registry.py:980-1020 | alternating alerts are pairs of an error and its own recovery, and count as the open incident says |
| `Promises.ReachableAlerts` | autostop_manager/automation_registry.py:980-1020 | in every reachable state alerts of a job alternate and no outbox key is used twice |
| `Promises.RunNowConserved` | autostop_manager/automation_registry.py:890-940 | accepted run-now commands equal manual runs plus all coalesced counts |
| `Promises.CommandsTakeEffectOnce` | autostop_manager/automation_registry.py:569-624 | repeating a command, any history later, gives the first response and changes nothing; another request under its key is refused |
| `Promises.HoldStops` | autostop_manager/automation_registry.py:1439-1443 | under a hold nothing is claimed or reconciled and no claim is current |
| `Promises.HoldFreezes` | autostop_manager/automation_control.py:478-482 | while a hold lasts no token is handed out and no existing job changes |
| `Promises.ReleaseHoldIsOwned` | autostop_manager/automation_registry.py:2184-2210 | a release hold is ended only by its own actor and attempt |
| `Promises.ReconcileSettlesPick` | autostop_manager/automation_registry.py:1150-1204 | a reconciliation settles exactly the job it picked, exactly when no lease holds it |
| `Promises.ReconciliationConverges` | autostop_manager/automation_registry.py:1132-1204 | with no hold and no active lease, as many applications as jobs out of sync bring all in sync |
| `Promises.ReachableAgreement` | autostop_manager/automation_registry.py:806-1204 | in every reachable state the runtime row agrees with what was asked for |
| `Promises.LastCommandHolds` | autostop_manager/automation_registry.py:2158-2241 | after any history the hold is what the last accepted new command on it asked for, with its owner and attempt while it is on |
| `Promises.HoldFreezesUntilCleared` | autostop_manager/automation_control.py:478-482 | from the command that turns the hold on until one turns it off, no token is handed out and no existing job changes |
| `Outcomes.RefusedExactly` | autostop_manager/automation_registry.py:806-852 | a command on a job is refused exactly for a missing or archived job, a missing revision or another revision, each with its code |
| `Outcomes.Creates` | autostop_manager/automation_registry.py:742-804 | when a job is created, and that it is off, in sync and never claimed |
| `Outcomes.Switches` | autostop_manager/automation_registry.py:806-852 | switching on leaves a job out of sync; switching off cancels what is queued and due |
| `Outcomes.Reschedules` | autostop_manager/automation_registry.py:854-888 | a new schedule within the bounds of the template is a new revision, an equal one none |
| `Outcomes.Enqueues` | autostop_manager/automation_registry.py:890-940 | a request is counted on the oldest run that covers it, or queues the only manual run for it |
| `Outcomes.Tests` | autostop_manager/automation_registry.py:942-977 | a test is one new intent, due at once |
| `Outcomes.Archives` | autostop_manager/automation_registry.py:1022-1088 | exactly when an archive goes through, which alerts it drops and which runs it cancels |
| `Outcomes.Holds` | autostop_manager/automation_registry.py:2158-2241 | exactly when a hold may change, and that it then is on or off as asked, with reason, owner and attempt |
| `Outcomes.Dispatches` | autostop_manager/automation_control.py:460-568 | which transaction each operation runs and which commands are refused before |
| `Outcomes.Records` | autostop_manager/automation_registry.py:569-624 | the hold belongs to the system, and a new command is recorded with its response |
| `Outcomes.Reconciles` | autostop_manager/automation_registry.py:1132-1204 | the job reconciled is the one that waited longest; it is in sync afterwards, idle or in error and due an interval later, or disabled with nothing queued |
| `Outcomes.OldestMeans` | autostop_manager/automation_registry.py:1150-1160 | which job is reconciled, and when none is |
| `Outcomes.Expires` | autostop_manager/automation_registry.py:1453-1485 | what an expired claim leaves of run, job, incident and outbox |
| `Outcomes.SweepsExactly` | autostop_manager/automation_registry.py:1444-1485 | the sweep expires exactly the claims whose lease has run out |
| `Outcomes.Grants` | autostop_manager/automation_registry.py:1541-1591 | the granted run is active under the next token and the present revision, its lease as long as asked for |
| `Outcomes.ClaimsExactly` | autostop_manager/automation_registry.py:1439-1541 | a claim takes the oldest queued run it may, else the first due job inside its window, else nothing |
| `Outcomes.ClaimsRefused` | autostop_manager/automation_registry.py:1429-1443 | no claims under a hold or for a lease of less than ten seconds or more than ten minutes |
| `Outcomes.DefersExactly` | autostop_manager/automation_registry.py:1509-1541 | exactly the due jobs passed over are put off, to the next time of their calendar |
| `Outcomes.DueMeans` | autostop_manager/automation_registry.py:1500-1515 | which jobs are due, in which order, and that only the latest of more than a hundred are left out |
| `Outcomes.Finishes` | autostop_manager/automation_registry.py:1740-1859 | a finished run has succeeded exactly when reported so; error state, error code, incident and waiting time of its job follow; nothing else changes |
| `Outcomes.FinishAlerts` | autostop_manager/automation_registry.py:1792-1819 | the alert a finished run queues, and when it queues none |
| `Outcomes.Cancels` | autostop_manager/automation_registry.py:1633-1704 | exactly when a run is cancelled, and how its job is settled |
| `Outcomes.Beats` | autostop_manager/automation_registry.py:1706-1738 | exactly when a lease is extended, to when, and when the run is reported alive |
| `Outcomes.CurrentExactly` | autostop_manager/automation_registry.py:1593-1631 | exactly when a claim is current |
| `Outcomes.Writes` | autostop_manager/automation_registry.py:1861-1910 | exactly when a cursor is written, its new value and revision, and that no other changes |
| `Outcomes.ClaimsDelivery` | autostop_manager/automation_registry.py:1932-2018 | the delivery claimed is the first that may be, and none is claimed when none may be |
| `Outcomes.DeliveryCurrentExactly` | autostop_manager/automation_registry.py:2020-2045 | exactly when a delivery is current |
| `Outcomes.FinishesDelivery` | autostop_manager/automation_registry.py:2098-2139 | exactly when a delivery is finished, as sent, or due again after the pause asked for |
| `Outcomes.GivesUpDelivery` | autostop_manager/automation_registry.py:2047-2096 | a cancelled delivery drops its row, a blocked one leaves it in transit without a lease |
| `RunLives.StepLives` | autostop_manager/automation_registry.py:1429-1859 | one action changes a run only along its life, and only its own holder or a lease that ran out ends an active one |
| `RunLives.EndedForever` | autostop_manager/automation_registry.py:1429-1859 | a run that has ended never changes again |
| `RunLives.SuccessIsReported` | autostop_manager/automation_registry.py:1740-1790 | a run stands as succeeded only because its holder reported success |
| `Scheduler.TakeTurn` | autostop_manager/automation_daemon.py:372-399 | one turn reconciles, or else delivers, or else starts a run |
| `Scheduler.ClaimsOnlyInSync` | autostop_manager/automation_daemon.py:377-399 | without a hold a turn claims only after it saw every job in sync, whatever others do in between |
| `Scheduler.LeaseStopsTheLine` | autostop_manager/automation_daemon.py:377-387 | while the oldest changed job is leased, no turn does anything for anyone else |
| `Scheduler.HeldUpExactly` | autostop_manager/automation_daemon.py:377-387 | whatever others do between its transactions, a turn is held up by a job exactly when there is no hold and the job is the oldest changed one and leased; it then changes only the standing of that job |
| `Scheduler.TurnTells` | autostop_manager/automation_daemon.py:372-399 | what a turn says is what its transactions did, in their order |
| `Scheduler.StartsOnlyDelivered` | autostop_manager/automation_daemon.py:388-399 | a run is started only after the turn saw no notification to deliver |
| `Calendars.ReachableTimes` | autostop_manager/automation_registry.py:1132-1204 | with daily windows, in every reachable state the time a job in sync waits for lies inside its window |
| `Calendars.ScheduledRunsInside` | autostop_manager/automation_registry.py:1497-1541 | a scheduled run is granted only while the clock is inside the window of its job |
| `ArchivedJobs.ArchiveIsFinal` | autostop_manager/automation_registry.py:1022-1088 | after an accepted archive a job stays archived along every history if and only if the archive found no lease on it |
| `ArchivedJobs.SweepWakes` | autostop_manager/automation_registry.py:1439-1485 | without a hold, any claim after the lease of an archived job has run out leaves the job in the error state |
| `TidierClaims.ArchivedThenErrored` | autostop_manager/automation_registry.py:1444-1485 | a history from the empty tables in which the sweep takes an archived job to the error state |
| `TidierClaims.EndsWhileActive` | autostop_manager/automation_registry.py:1633-1859 | a claimed run can be finished or cancelled exactly while it is active, at any clock reading |
| `TidierClaims.ExpiredFinishes` | autostop_manager/automation_registry.py:1740-1790 | a history after which a run whose lease has run out can be finished and can be cancelled |
| `TidierClaims.HeartbeatAgrees` | autostop_manager/automation_registry.py:1706-1738 | a caller that names the run it claimed hears of success exactly when its lease was extended |
| `TidierClaims.ExtendsButFails` | autostop_manager/automation_registry.py:1706-1738 | a history after which a heartbeat that names another run extends the lease and reports failure |
| `TidierClaims.DueClaimInSync` | autostop_manager/automation_registry.py:1500-1591 | a run that a due schedule starts is granted only at the applied revision of its job |
| `TidierClaims.ClaimedOutOfSync` | autostop_manager/automation_registry.py:1487-1497 | a history after which a queued run has been claimed while its job is out of sync |
| `TidierClaims.LeaseHoldsUp` | autostop_manager/automation_daemon.py:377-387 | a history after which a whole turn is held up by a leased job, whatever others do in it |
| `CrmSafety.DoKeeps` | autostop_manager/automation_jobs.py:581-747 | every move of every worker, the feed, the bridge and the rest of the store keeps the delivery invariant |
| `CrmSafety.ResumesKeeps` | autostop_manager/automation_jobs.py:597-666 | what a run resumes with fits the record it found |
| `CrmSafety.PrepareKeeps` | autostop_manager/automation_jobs.py:693-702 | the seven writes make one whole record, the state last |
| `CrmSafety.ClearKeeps` | autostop_manager/automation_jobs.py:593-595 | clearing takes the state away first |
| `CrmSafety.ArmKeeps` | autostop_manager/automation_jobs.py:713-714 | a send is armed only where every earlier one has ended |
| `CrmSafety.AllAcked` | autostop_manager/automation_jobs.py:597-622 | with nothing in flight everything a job sent is acknowledged |
| `CrmPromises.EventsSentOnce` | autostop_manager/automation_jobs.py:597-747 | over every interleaving no event is covered by two sends of a job that may have delivered |
| `CrmPromises.RecordsNeverTorn` | autostop_manager/automation_jobs.py:524-532 | whenever a state is set all pending cursors are of one digest, and past sending its message exists |
| `CrmPromises.AckedWereReported` | autostop_manager/automation_jobs.py:653-666 | every acknowledged event is covered by a digest that was sent, delivered and read back |
| `CrmPromises.StaleWorkerHarmless` | autostop_manager/automation_registry.py:1861-1910 | once a newer claim was granted no worker with an older token ever arms a send, whatever anyone does from then on |
| `CrmPromises.StaleWriteStops` | autostop_manager/automation_registry.py:1861-1910 | its next write changes nothing and stops it |
| `CrmProgress.WorkerSends` | autostop_manager/automation_jobs.py:668-719 | an undisturbed worker with no record to resume gets out a send of the next events |
| `CrmProgress.NextAdvances` | autostop_manager/automation_jobs.py:668-719 | each of its calls brings that send nearer and touches only its own job |
| `CrmRecovery.RunRecovers` | autostop_manager/automation_jobs.py:597-666 | an undisturbed run that finds a delivery it can resolve (a `sending` record only if its message arrived and is found) has it acknowledged and the record cleared, and sends nothing meanwhile |
| `CrmRecovery.RunResumes` | autostop_manager/automation_jobs.py:668-719 | and then gets out a send of the events right after it |
| `CrmRecovery.RunCompletes` | autostop_manager/automation_jobs.py:727-741 | a run whose send is delivered and answered has it acknowledged, clears its record and is through, without another send |
| `CrmRecovery.RefusalPrepares` | autostop_manager/automation_jobs.py:715-726 | a refused send leaves the record prepared and its commit retracted, and stops the worker |
| `CrmRecovery.RefusedIsSentNext` | autostop_manager/automation_jobs.py:597-622 | the next undisturbed run then sends the events at the acknowledgement |
| `CrmCalls.LostClaimStops` | autostop_manager/automation_jobs.py:554-580 | a lost lease, a claim no longer current or a job not listed stops the worker |
| `CrmCalls.BridgeStops` | autostop_manager/automation_jobs.py:616-650 | no token, a message not found, a reply or a read-back that verifies nothing stops the worker |
| `CrmCalls.FeedStops` | autostop_manager/automation_jobs.py:674-741 | no events, or an acknowledgement that falls short, stops the worker |
| `CrmCalls.BadWriteStops` | autostop_manager/automation_jobs.py:581-595 | a write under a lost lease or of a changed cursor stops the worker and writes nothing |
| `CrmCalls.AnswersAllowed` | autostop_manager/automation_jobs.py:668-692 | what the feed may answer to registering, reading and summarizing |
| `CrmCalls.EventsAllowed` | autostop_manager/automation_jobs.py:653-666 | any send that went out may be delivered, any acknowledgement asked for may take effect |
| `CrmCalls.ClaimsStart` | autostop_manager/automation_jobs.py:668-672 | a granted claim of a digest job gets a worker, which begins with a heartbeat |
| `CrmCalls.ChecksBetween` | autostop_manager/automation_jobs.py:699-735 | where the heartbeats and the checks of the claim stand |
| `CrmCalls.SendsAreChecked` | autostop_manager/automation_jobs.py:701-714 | in every history a send was armed only after a preview token and a check that found the claim current |
| `CrmMoves.ActsShape` | autostop_manager/automation_jobs.py:581-747 | a call of a worker moves no other worker, makes at most one commit, and that one only where the worker was about to arm it |
| `CrmAcrossJobs.StepJobs` | autostop_manager/automation_registry.py:742-1088 | no transaction lists a second digest job; a listed one is retired only by its own archive, and a retired one never gets a lease or token again |
| `CrmAcrossJobs.DoAcross` | autostop_manager/automation_jobs.py:668-747 | moves keep the sends of all jobs in one chain as long as every archive finds its job quiet |
| `CrmAcrossJobs.EventsSentOnceAcrossJobs` | autostop_manager/automation_registry.py:1022-1088 | if every archive finds its job quiet, no event is covered by two sends that may have delivered, of any jobs |
| `CrmAcrossJobs.SettledIsQuiet` | autostop_manager/automation_registry.py:1022-1088 | with no lease, and nothing pending in flight or its digest acknowledged, a job is quiet |
| `CrmArchive.ArchiveIsSafe` | autostop_manager/automation_registry.py:1022-1088 | after an accepted archive, quiet archives can still lead to two sends of one event if and only if the archived job was not quiet |
| `CrmArchive.ArchiveIsSafeInHistory` | autostop_manager/automation_registry.py:1022-1088 | the same for the archive after any history from the empty tables whose own archives were quiet |
| `CrmResend.UnackedIsResent` | autostop_manager/automation_registry.py:1022-1088 | whenever no hold is on, no digest job is listed and no run has been waiting at the time, a send that may have delivered and is not acknowledged can be repeated by a new job, without an archive |
| `CrmResend.EventSentTwice` | autostop_manager/automation_registry.py:1022-1088 | a history from the empty tables in which two jobs send one event |
| `OutboxSafety.DoKeeps` | autostop_manager/automation_daemon.py:207-356 | every move of every daemon keeps the outbox invariant |
| `OutboxSafety.NewClaimKeeps` | autostop_manager/automation_registry.py:1932-2018 | a claim that may send has no rival, and a recovery claim never sends |
| `OutboxSafety.SettleKeeps` | autostop_manager/automation_registry.py:2047-2139 | a row goes back unsent only when nothing was or can still be sent |
| `OutboxSafety.SentAtMostOnce` | autostop_manager/automation_daemon.py:207-356 | at most one send of a row may have delivered |
| `OutboxSafety.StatusIsTrue` | autostop_manager/automation_daemon.py:207-356 | pending, undelivered and dropped rows were certainly not sent; a sent one was delivered by a send |
| `OutboxSafety.BlockedForever` | autostop_manager/automation_registry.py:2072-2096 | a blocked row never changes again |
| `OutboxProgress.GoodClaimSends` | autostop_manager/automation_daemon.py:286-331 | a claim that stays current, of a row there is a text for, gets its send out |
| `OutboxProgress.GoodClaimDelivers` | autostop_manager/automation_daemon.py:286-356 | and when the send is delivered and answered the row ends as sent, by that one send |
| `OutboxProgress.RecoverySettles` | autostop_manager/automation_daemon.py:249-285 | a recovery marks a message it finds as sent and blocks any other row, without a send |
| `OutboxProgress.TextsExactly` | autostop_manager/automation_daemon.py:207-247 | which rows there is a text for |
| `OutboxProgress.OtherAnswers` | autostop_manager/automation_daemon.py:240-356 | what every other answer leads to |
| `OutboxProgress.UnsentIsDueAgain` | autostop_manager/automation_daemon.py:340-348 | a row reported unsent is due again after a pause, one given up is dropped |
| `OutboxProgress.ClaimsStart` | autostop_manager/automation_daemon.py:388-392 | a granted delivery gets a worker of its own |
| `OutboxProgress.SendsArePreviewed` | autostop_manager/automation_daemon.py:297-331 | in every history a claim that sends got a preview token before and was found current after it |
| `JsonTree.ValidJsonTree` | autostop_manager/action_contract.py:215-237 | ends on every object graph, and accepts exactly those where all that is reachable is allowed and nothing contains itself |
| `JsonTree.GoodIsJsonTree` | autostop_manager/action_contract.py:215-237 | the recursive reading and the one over paths agree |
| `JsonTree.SharingAllowed` | autostop_manager/action_contract.py:228-235 | a shared tree is accepted any number of times |
| `JsonTree.JsonMeans` | autostop_manager/action_contract.py:215-237 | accepted exactly when all that is reachable is a scalar, a finite number, a list or a dictionary with text keys, and nothing contains itself |
| `JsonTree.ForeignSpoils` | autostop_manager/action_contract.py:215-237 | one infinite number or foreign value anywhere spoils the tree |
| `IncludedOperations.BuildGraph` | autostop_manager/automotive_labor.py:397-415 | the graph merges rows with one key; every named operation is included |
| `IncludedOperations.CountIncoming` | autostop_manager/automotive_labor.py:416-419 | the count of each operation is the number of those that include it |
| `IncludedOperations.IncludedOperationIds` | autostop_manager/automotive_labor.py:397-426 | a set exactly when the inclusion graph has no cycle, and then the included operations |
| `IncludedOperations.StuckIsCyclic` | autostop_manager/automotive_labor.py:420-426 | operations that all wait for one another contain a cycle |
| `IncludedOperations.AcyclicIsRooted` | autostop_manager/automotive_labor.py:397-426 | every operation of an accepted list is reached from one that is included in nothing |
| `IncludedOperations.SomeRowIsKept` | autostop_manager/automotive_labor.py:397-426 | an accepted list that is not empty has a row not included anywhere |
| `IncludedOperations.KeyTells` | autostop_manager/automotive_labor.py:56-58 | an operation is known by its identifier, else its name, else its place in the list |
| `PriceSample.PublicPriceSample` | autostop_manager/automotive_labor.py:330-358 | each identified price once unless vetoed, every unidentified one as often as seen |
| `PriceSample.OrderDoesNotMatter` | autostop_manager/automotive_labor.py:330-358 | the sample is the same for any order of the observations |
| `PriceSample.RepetitionDoesNotMatter` | autostop_manager/automotive_labor.py:330-358 | seeing an identified price again changes nothing |
| `PriceSample.QuoteOfMultiset` | autostop_manager/automotive_labor.py:389-394 | median and range depend on the prices alone, not on their order |
| `PriceSample.QuoteBounds` | autostop_manager/automotive_labor.py:389-394 | the median and every price lie in the range |
| `PriceSample.QuoteIsMedian` | autostop_manager/automotive_labor.py:389-394 | the price is half the sum of the two middle prices in ascending order, the range the first and the last |
| `PriceSample.SameSource` | autostop_manager/automotive_labor.py:298-327 | when two observations have one source |
| `PriceSample.OthersDoNotCount` | autostop_manager/automotive_labor.py:330-350 | observations of another operation, without a name or a price, change nothing |
| `PriceSample.UnidentifiedCounts` | autostop_manager/automotive_labor.py:350-354 | an unidentified observation adds its price exactly when it is of labor alone, without parts |
| `PriceSample.NewSourceCounts` | autostop_manager/automotive_labor.py:350-358 | so does a new source |
| `PriceSample.VetoTakesOut` | autostop_manager/automotive_labor.py:355-358 | an observation that includes parts, or is not of labor alone, takes its source out |
| `PriceSample.UndecidedCountsNot` | autostop_manager/automotive_labor.py:350-358 | one that says neither changes nothing |
| `WorkPrice.RoundedIsNear` | autostop_manager/automotive_labor.py:285-291 | a rounded price is a multiple of the quantum within half a quantum of the scaled price |
| `WorkPrice.RoundedKeepsOrder` | autostop_manager/automotive_labor.py:285-291 | rounding keeps order |
| `WorkPrice.HalvesRoundAway` | autostop_manager/automotive_labor.py:285-291 | half a quantum is rounded away from zero |
| `WorkPrice.OperationPrice` | autostop_manager/automotive_labor.py:361-394 | the quote of a row by its hours or by the public sample, or none |
| `WorkPrice.HourlyQuotes` | autostop_manager/automotive_labor.py:368-387 | an hourly price is hours times rate; a range gives its bounds at the rate and the price halfway; none without hours or with an unreadable or reversed range |
| `WorkPrice.PublicQuotes` | autostop_manager/automotive_labor.py:388-394 | a public price is the median of the sample in its range; none without a name or a sample |
| `WorkPrice.QuoteInRange` | autostop_manager/automotive_labor.py:361-394 | the price of a quote lies in its range |
| `WorkPrice.CalculateWorkPrice` | autostop_manager/automotive_labor.py:429-521 | every row is charged or left out, once and in order, for the reason that applies; totals are the sums; complete exactly when nothing is missing |
| `WorkPrice.AcceptedExactly` | autostop_manager/automotive_labor.py:443-458 | which policies are accepted |
| `WorkPrice.CompleteExactly` | autostop_manager/automotive_labor.py:508-521 | the price is complete exactly when no cost is unknown and every row is charged, repeated or included |
| `WorkPrice.SubtotalInRange` | autostop_manager/automotive_labor.py:508-509 | lower total, subtotal and upper total are in order |
| `WorkPrice.RoundingError` | autostop_manager/automotive_labor.py:285-291 | rounding changes the subtotal and both bounds by at most half a quantum for each line |
| `WorkPrice.ChargedOnce` | autostop_manager/automotive_labor.py:480-486 | no operation is charged twice and none that another includes |
| `WorkPrice.SomethingIsCharged` | autostop_manager/automotive_labor.py:480-484 | some row of an accepted list is not left out as repeated or included |
| `WorkPrice.PricesIgnoreOrder` | autostop_manager/automotive_labor.py:330-394 | public quotes do not depend on the order of observations |
| `WorkPrice.PricesIgnoreRepetition` | autostop_manager/automotive_labor.py:330-394 | nor on repeated identified ones |
| `ActiveWindow.NearTimes` | autostop_manager/automation_registry.py:180-227 | the bisection between the folds of a reading ends exactly on the jump |
| `ActiveWindow.NextActiveTime` | autostop_manager/automation_registry.py:195-234 | a time not before the input, inside the window, and the earliest one exactly under a stated condition, which forward jumps and constant offsets always meet |
| `ActiveWindow.SomeOpening` | autostop_manager/automation_registry.py:195-234 | there is always a boundary to choose, so the minimum is never of nothing |
| `ActiveWindow.FoundIsTried` | autostop_manager/automation_registry.py:207-229 | under that condition the earliest time is among the boundaries |
| `ActiveWindow.LostIsNotTried` | autostop_manager/automation_registry.py:207-229 | otherwise it is not |
| `ActiveWindow.MissedEvening` | autostop_manager/automation_registry.py:195-234 | a clock that goes back over midnight makes the search miss an opening |
| `ReconciliationSummary.Presenter.constructor` | autostop_manager/automotive_identity.py:416-422 | every root record gets a reference that leads to it |
| `ReconciliationSummary.Presenter.OriginReference` | autostop_manager/automotive_identity.py:424-434 | the reference leads to a record that says all the origin said; none leads elsewhere afterwards |
| `ReconciliationSummary.Presenter.CompactVariant` | autostop_manager/automotive_identity.py:436-452 | evidence lists and provenance become references, everything else stays |
| `ReconciliationSummary.PresentSummary` | autostop_manager/automotive_identity.py:401-465 | every reference resolves, and expanding gives the response back exactly when no variant carried references of its own |
| `ReconciliationSummary.ExpandSummary` | autostop_manager/automotive_identity.py:468-522 | the loops give the expansion, or an error for any reference, variant or index that does not resolve |
| `ReconciliationSummary.ExpandsBack` | autostop_manager/automotive_identity.py:436-512 | one presented variant expands back exactly when it carried no references of its own |
| `ReconciliationSummary.ResolvesExactly` | autostop_manager/automotive_identity.py:474-493 | a reference resolves exactly to the object at its index in the list it names, and carries nothing else |
| `ReconciliationSummary.ListsExactly` | autostop_manager/automotive_identity.py:498-506 | when a list of references is refused, and what it stands for |
| `ReconciliationSummary.ProvenanceExactly` | autostop_manager/automotive_identity.py:507-514 | the same for provenance |
| `ReconciliationSummary.VariantExactly` | autostop_manager/automotive_identity.py:498-515 | a variant is refused exactly when one of its references is, and the rest of it stays |
| `ReconciliationSummary.ExpandExactly` | autostop_manager/automotive_identity.py:468-522 | exactly when a summary is refused, and all that its expansion holds |
| `ReconciliationSummary.StandsExactly` | autostop_manager/automotive_identity.py:424-430 | which records stand for an origin |
| `ReconciliationSummary.SummaryTells` | autostop_manager/automotive_identity.py:454-465 | what a summary adds, drops and keeps |
| `ReconciliationSummary.CompactedExactly` | autostop_manager/automotive_identity.py:436-452 | which lists and which provenance become references |
| `ReconciliationSummary.OwnReferencesAreLost` | autostop_manager/automotive_identity.py:436-512 | a response whose variant carries references, presented and expanded to something else |
| `Fitment.DateVerdict` | autostop_manager/automotive_parts.py:574-604 | supported, rejected and unknown mean that all, none, or some but not all days of what is known fit |
| `Fitment.YearLengths` | autostop_manager/automotive_parts.py:574-586 | the calendar it is measured by: 365 days a year, 366 exactly in leap years, 146097 in four centuries |
| `Fitment.MonthLengths` | autostop_manager/automotive_parts.py:574-586 | the day after the last day of a month is the first of the next |
| `Fitment.ExistsExactly` | autostop_manager/automotive_parts.py:574-586 | a date exists exactly when it falls before the first of the next month |
| `Fitment.RankIsCalendar` | autostop_manager/automotive_parts.py:589-604 | dates are compared as the calendar orders their days |
| `Fitment.TextIsDays` | autostop_manager/automotive_parts.py:574-586 | a month stands for its days from the first to the eve of the next month, a day for itself |
| `Fitment.ReadableExactly` | autostop_manager/automotive_parts.py:574-586 | which dates can be read |
| `Fitment.NumbersJudged` | autostop_manager/automotive_parts.py:607-632 | numbers are judged exactly when value and bounds can be read, the bounds are in order and years are whole from 1900 on |
| `Fitment.UnsuitedIsUnknown` | autostop_manager/automotive_parts.py:675-696 | nothing known, nothing asked or a fact of another kind is never judged |
| `Fitment.UnreadableIsUnknown` | autostop_manager/automotive_parts.py:589-599 | what cannot be read or asks for an empty range is never judged |
| `Fitment.VerdictIsSound` | autostop_manager/automotive_parts.py:607-696 | a definite verdict holds for every completion of what is known, through nested alternatives |
| `Fitment.AlternativesVerdict` | autostop_manager/automotive_parts.py:589-696 | for well-formed ranges nested at will: rejected exactly when nothing the fact leaves possible fits, supported exactly when one range fits all of it |
| `Fitment.KnownIsJudged` | autostop_manager/automotive_parts.py:589-696 | a known day or number is supported when it fits and rejected when it does not |
| `Fitment.UnknownExactly` | autostop_manager/automotive_parts.py:687-689 | support misses a vehicle that always fits exactly when every completion fits some alternative and no single range fits them all |
| `Fitment.OneUnknownIsExact` | autostop_manager/automotive_parts.py:687-689 | with one unknown range and all other alternatives rejected, some completion does not fit |
| `Fitment.SplitMonthIsUnknown` | autostop_manager/automotive_parts.py:687-689 | two ranges that cover a month between them leave it unknown |
| `Fitment.CodesVerdict` | autostop_manager/automotive_parts.py:641-656 | supported exactly when every completion of the code list meets the requirement; rejected only when none does, and exactly then if and only if the requirement can be met, the list is complete or an excluded code is on it |
| `Fitment.UnmeetableIsUnknown` | autostop_manager/automotive_parts.py:641-656 | a code demanded and excluded, and an incomplete list without it: unknown, though nothing can fit |
| `Fitment.CodesJudged` | autostop_manager/automotive_parts.py:635-647 | which requirements on codes are judged at all |
| `Fitment.SatisfiableMeans` | autostop_manager/automotive_parts.py:641-656 | when a requirement on codes can be met |
| `BoundedHttp.CrmHttpAttempt.constructor` | autostop_manager/automation_jobs.py:73-78 | neither dispatched nor abandoned |
| `BoundedHttp.CrmHttpAttempt.Dispatch` | autostop_manager/automation_jobs.py:80-84 | dispatch only before the deadline and before giving up |
| `BoundedHttp.CrmHttpAttempt.GiveUp` | autostop_manager/automation_jobs.py:86-89 | giving up tells whether the request was dispatched |
| `BoundedHttp.TrackedTransportAdmission.constructor` | autostop_manager/bounded_http_read.py:37-43 | open and empty |
| `BoundedHttp.TrackedTransportAdmission.TryAcquire` | autostop_manager/bounded_http_read.py:45-52 | a permit only while accepting and below capacity |
| `BoundedHttp.TrackedTransportAdmission.GiveBack` | autostop_manager/bounded_http_read.py:54-58 | returning one too many is an error and changes nothing |
| `BoundedHttp.TrackedTransportAdmission.BeginDrain` | autostop_manager/bounded_http_read.py:60-62 | nothing more is accepted |
| `BoundedHttp.CertainMeansNeverSent` | autostop_manager/automation_jobs.py:73-205 | if giving up found no dispatch the request never goes out; a change that could not start, or was given up and not called uncertain, was not and will not be sent |
| `BoundedHttp.CertainFailureSent` | autostop_manager/automation_jobs.py:181-220 | a change reported as a failure that is not uncertain was sent, now or ever, exactly when the failure is a rejected response |
| `BoundedHttp.RejectedButSent` | autostop_manager/automation_jobs.py:206-220 | a run of one call in which a change goes out and is reported as a certain failure |
| `BoundedHttp.PermitsConserved` | autostop_manager/bounded_http_read.py:34-67 | permits out are the live holders, never above capacity, each returned once when its call is over |
| `BoundedHttp.DrainOnlyFalls` | autostop_manager/bounded_http_read.py:60-67 | after the drain began pending never rises |
| `BoundedHttp.StoppedIsQuiet` | autostop_manager/automation_daemon.py:410-446 | once stopped is reported no request goes out and no permit is held |
| `BoundedHttp.CallAnswered` | autostop_manager/automation_jobs.py:153-220 | a call that gets its permit and is dispatched in time is answered, and leaves the gate as it found it |
| `BoundedHttp.RefusedExactly` | autostop_manager/bounded_http_read.py:45-52 | a permit is refused exactly when the gate is closed or full |
| `BoundedHttp.DispatchedExactly` | autostop_manager/automation_jobs.py:80-84 | a request is let out exactly before its deadline and before giving up; otherwise it is never sent |
| `BoundedHttp.GivingUpReports` | autostop_manager/automation_jobs.py:199-205 | giving up reports uncertainty exactly for a change that was dispatched |
| `BoundedHttp.StopsExactly` | autostop_manager/automation_daemon.py:410-446 | when the daemon reports that it stopped, and that a drain only closes the gate |
| `BoundedHttp.ReleasedExactly` | autostop_manager/bounded_http_read.py:54-58 | a permit returned is one less; with none out it is an error |
| `BoundedHttp.WorkerCanEnd` | autostop_manager/automation_jobs.py:168-180 | however far a worker has come it can end, and returns its permit then |

## Left out

- SQLite, file permissions, schema migration, sockets, systemd, JSON text and hashing.
- Role templates beyond their refusal, and the role executor; systemd timers and their drop-in files.
- Status, preview, readiness packets, display names, seeding of defaults and other reporting columns
  (heartbeat, success and creation times).
- Request parsing and string patterns in front of the store; the text and validation of a CRM digest.
- The field checks and contract assembly of action contracts.
- Dictionary matching of operation names, part names and identity values: they are uninterpreted here.
- Floating point: prices and numbers are exact, and overflow is not modelled.
- Zones with several clock jumps within three days, and jumps of a day or more.
- Redaction of private keys and identifiers: a response is taken as already redacted.
- Asynchronous cancellation inside the daemon's shutdown; the two admissions it drains are alike, and one is
  modelled.
- Scheduler.TakeTurn: the method takes a turn undisturbed; other processes between its transactions are
  covered by the function it is proved against.
- Store.AutomationStore.Dispatch: the system timer and role operations among the cited lines are not modelled.
- CrmPromises.EventsSentOnce: speaks of the sends of one job; across jobs it needs quiet archives, as
  CrmAcrossJobs.EventsSentOnceAcrossJobs and CrmArchive.ArchiveIsSafe state.
- Scheduler.LeaseStopsTheLine: follows turns with nothing in between; with others acting, each turn is held up
  exactly as Scheduler.HeldUpExactly states.
- CrmRecovery.RunRecovers: a `sending` record whose message is not found stops the run, as the code wants; when
  the message arrives later, a later run resolves it.
- BoundedHttp.PermitsConserved: a thread start that fails with anything but a runtime error is not a
  handled path and is not modelled.
- WorkPrice.CalculateWorkPrice: takes rows, policy and observations as already checked for shape and size,
  and names rows by their place where the result names them by operation.
- Fitment.VerdictIsSound: covers dates, numbers and their alternatives; identity fields need the
  uninterpreted matching.

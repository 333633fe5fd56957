# Verified model of the durable job scheduler and its visibility projection

A scheduler keeps jobs, attempts and an outbox in one database. Workers claim jobs under a lease and report
outcomes through a fence. A publisher moves outbox rows to a broker, a sink moves broker messages to an
immutable journal, and a projector folds each job's journal into the tables that queries read. This project
models those parts, together with the Cassandra workload protocol, the simulation poller and the Fibonacci
handler, and proves what holds over whole runs: any number of workers and publishers, expired leases, crashes
between transactions, lost, duplicated and reordered messages.

`dafny verify dfyconfig.toml` checks everything.

## How it is laid out

- `Model`, `Reducer`: the lifecycle vocabulary and the reducer's handlers, one function per event type.
  `StatusLaws`, `Evidence`: what holds of every replay. `Transitions`: which events write each column.
  `Engine`: the in-memory engine and its class. `Timeouts`: when a reconciliation pass raises a finding.
  `Responses`: what a query derives from an aggregate.
- `Scheduler`: the scheduler's transactions as a state machine over its tables. `SchedulerLaws`, `Simulation`,
  `TraceLaws`, `TraceLanguage`: what one transaction keeps. `Runs`: whole runs. `Timing`: leases, recovery and
  retry waits. `SchedulerService`, `SchedulerWorker`: the same transactions as methods on mutable tables, each proved to be the machine's step.
- `Delivery`: which outcome is shown under every order of arrival.
- `Wire`: the canonical document. `Publisher`, `Projection`: the two ends of the message flow, each as a state
  machine and as a class. `Pipeline`: scheduler, publisher, broker, journal and projection running side by side.
- `Cassandra`, `Polling`, `Fibonacci`: the workload protocol, the batch poller, fast doubling.
- `Ordering`, `Batches`: ORDER BY with LIMIT, and draining by batches.

Each SQL transaction is one atomic step and reads one clock value. A crash is a run that ends between two
steps. Text identifiers are natural numbers, standing for their rank in text order; every drawn UUID is a value
of a counter that never repeats. The digest is an arbitrary function of the document.

## What the model shows about the code

- A terminal status the tables show is always the scheduler's own, at any lag of the projector
  (`Pipeline.VisibleOutcomeIsReal`). SUCCEEDED survives every order of arrival; FAILED and RETRIES_EXHAUSTED
  survive exactly the orders `Delivery.ShowsFailure` and `Delivery.ShowsExhaustion` describe, and there are runs
  whose events can arrive in an order that hides them (`Delivery.FailureCanHide`, `Delivery.ExhaustionCanHide`).
- Recovery writes no event (`Runs.RecoveryIsSilent`), so a job exhausted by recovery is never shown as such, in
  any order of arrival (`Delivery.DeliveredOutcome`); it does happen (`Runs.AbandonedLastAttempt`).
- The marker lookup of `apply_once` never decides anything, in any interleaving
  (`Cassandra.MarkerLookupNeverMatches`); once-only holds per observed checksum and not per operation
  (`Cassandra.OperationCanIncrementTwice`).
- One undecodable document stops its job's rows, and every pass whose batch holds one of them, for ever
  (`Projection.UndecodableRowBlocks`).
- An empty job type does not survive the wire: it is read as GENERIC. `Wire.CopyAgreesExactly` says when that
  shows.
- The projected maximum of attempts is the row's only if that is at least 3, the aggregate's default
  (`Runs.ReplayMatchesTables`).

## Model

| member | source | states |
|---|---|---|
| Runs.ReplayMatchesTables | src/job_visibility/scheduler/service.py:101-298 | Simulation over all runs: the in-order replay of a job's outbox is terminal exactly when the row is finished and its newest attempt has an outcome, with that status; attempt keys, completed count and, after a retryable failure, next_retry_at agree with the rows; the maximum of attempts is the row's, or 3 if that is more |
| Runs.DeliveredSuccess | src/job_visibility/scheduler/service.py:183-258 | Any delivery of a job's outbox, partial, duplicated or reordered, shows SUCCEEDED exactly when the success event arrived; then the row is SUCCEEDED, and every SUCCEEDED row has such an event |
| Delivery.DeliveredOutcome | src/job_visibility/engine.py:198-329 | After any run, for distinct delivered events in any order: SUCCEEDED, FAILED and RETRIES_EXHAUSTED are each shown exactly under a condition on the order alone; a shown terminal status is the row's own, and never that of a job exhausted by recovery |
| Delivery.FailedExactly | src/job_visibility/engine.py:206-283 | For the kinds of event a job emits that does not succeed or run out, with at most one final failure: the replay shows FAILED exactly when a final failure arrives and every later start is of an attempt that had already failed |
| Delivery.ExhaustedExactly | src/job_visibility/engine.py:206-329 | Without a success, the replay shows RETRIES_EXHAUSTED exactly when the last of the exhaustions and starts is an exhaustion |
| Delivery.StartsFirstSuffice | src/job_visibility/engine.py:198-329 | After any run, a delivery with an exhaustion or a final failure and no start after it replays to the row's own final status, whatever else is missing or out of order |
| Delivery.ReorderedExhaustion | src/job_visibility/engine.py:198-329 | An order that hides an exhaustion: exhaustion, start, retryable failure of one attempt ends RETRY_PENDING |
| Delivery.ReorderedFailure | src/job_visibility/engine.py:206-283 | An order that hides a final failure: then the start and the retryable failure of another attempt ends RETRY_PENDING |
| Delivery.ExhaustionCanHide | src/job_visibility/scheduler/service.py:207-258 | From every good state with a due job on its last attempt there is a run that exhausts it and a delivery of its own events that shows RETRY_PENDING |
| Delivery.FailureCanHide | src/job_visibility/scheduler/service.py:207-258 | From every good state with a due job with two attempts left there is a run that fails it for good and a delivery of its own events that shows RETRY_PENDING |
| Runs.RunIsSafe | migrations/scheduler/versions/0001_scheduler_base.py:15-43 | After any run: one outcome event per attempt with an outcome and none otherwise, the outbox is a word of the grammar with at most its last round final, attempts are exactly 1..attempt_number, every schema CHECK holds, the one on payload and reference included, at most one claim passes |
| Runs.EndedClaimsNeverPass | src/job_visibility/scheduler/service.py:183-324 | Once a completion or recovery takes effect, no claim ever issued on the job passes the fence again in any later run |
| Runs.DeadClaimsStayDead | src/job_visibility/scheduler/service.py:300-324 | A claim the fence rejects, expired, recovered, completed or superseded, is rejected for ever |
| Runs.RunGrows | src/job_visibility/scheduler/service.py:101-298 | Over any later run outcomes are never rewritten, superseded attempts are frozen, the trace only grows and a finished job is final |
| Runs.MovesAreBounded | src/job_visibility/scheduler/service.py:101-298 | However long a run, a job's claim is taken and released at most 2 * max_attempts times |
| Timing.ClaimLasts | src/job_visibility/scheduler/service.py:101-153 | A claim passes until the claiming instant plus the lease, whatever other workers do, unless completed; until then recovery has no effect, and without a heartbeat it passes no longer |
| Timing.HeartbeatLasts | src/job_visibility/scheduler/service.py:172-181 | An effective heartbeat makes the claim last a whole lease from its own instant, with the same guarantees |
| Timing.OnlyItsOwnClaim | src/job_visibility/scheduler/service.py:300-324 | Claims that differ in attempt, owner or token never both pass the fence |
| Timing.RetriesWait | src/job_visibility/scheduler/service.py:207-258 | After any run a job waiting to retry attempt n is available a full wait after an instant between its claim and its completion |
| Timing.WaitShape | src/job_visibility/scheduler/service.py:35-47 | The wait is 2 after the first attempt, doubles until it reaches 300 and is 300 from the ninth on |
| Timing.DelayIsWait | src/job_visibility/scheduler/service.py:207-213 | The delay of `fail` is that wait |
| Timing.RecoveryExactly | src/job_visibility/scheduler/service.py:279-298 | Recovery takes effect exactly on a claimed or running row whose expiry has passed |
| Timing.RecoveryIsPrompt | src/job_visibility/scheduler/service.py:279-298 | A recovered job is exhausted on its last attempt and otherwise due at once |
| Timing.SubmittedIsClaimable | src/job_visibility/scheduler/service.py:52-99 | A submitted job can be claimed exactly from its schedule on |
| Timing.ClaimableFrom | src/job_visibility/scheduler/service.py:101-120 | A claim takes effect exactly on a pending or waiting row whose available_at has come |
| Runs.DrivenRunsAreComplete | src/job_visibility/scheduler/service.py:260-277 | In runs driven through execute the in-order replay has no finding and incomplete_lifecycle is false |
| Runs.RecoveryIsSilent | src/job_visibility/scheduler/service.py:279-298 | Recovering an expired claim leaves outbox and attempts alone; it exhausts the row exactly on the last attempt, while the replay is not terminal |
| Runs.AbandonedLastAttempt | src/job_visibility/scheduler/service.py:279-298 | From every good state with a due job on its last attempt, claim, expiry and recovery end with the row exhausted and the replay not terminal |
| Runs.RunGood | src/job_visibility/scheduler/service.py:52-298 | Every state of every run keeps the whole invariant: tables, simulation, explained events, outcomes once, grammar |
| SchedulerLaws.JobStepInv | src/job_visibility/scheduler/service.py:101-324 | Every permitted transaction of any worker keeps the row and attempt invariant |
| SchedulerLaws.SubmittedColumns | src/job_visibility/scheduler/service.py:52-99 | Every column and both events of a new job |
| SchedulerLaws.ClaimColumns | src/job_visibility/scheduler/service.py:101-153 | Every column a claim writes: next attempt, new token, whole lease, attempt row and event |
| SchedulerLaws.StartColumns | src/job_visibility/scheduler/service.py:155-170 | What a start writes, and that it leaves the claim alone |
| SchedulerLaws.HeartbeatColumns | src/job_visibility/scheduler/service.py:172-181 | A heartbeat extends the claim by a whole lease and writes nothing else but the instant |
| SchedulerLaws.SucceedColumns | src/job_visibility/scheduler/service.py:183-205 | What a success writes in row, attempt and outbox |
| SchedulerLaws.FailColumns | src/job_visibility/scheduler/service.py:207-258 | What a failure writes: retried, exhausted or final, with its code and its events |
| SchedulerLaws.ProgressStep | src/job_visibility/scheduler/service.py:101-298 | Each transaction that takes or releases a claim advances a bounded measure by one, and no other does |
| Simulation.StepAgrees | src/job_visibility/scheduler/service.py:101-298 | One step of the simulation: replaying the longer outbox matches the changed rows |
| TraceLanguage.StepSpelled | src/job_visibility/scheduler/service.py:142-277 | One step keeps the outbox in its grammar: creation, then rounds of one retrieval, starts and a closing |
| TraceLaws.SuccessUnderAnyDelivery | src/job_visibility/engine.py:230-257 | For any events drawn from a job's outbox the replay shows SUCCEEDED exactly when a success is among them |
| SchedulerService.SchedulerService.SubmitChecked | src/job_visibility/scheduler/service.py:52-99 | Is the machine's submit step and says created, identical or conflicting exactly |
| SchedulerService.SchedulerService.ClaimDue | src/job_visibility/scheduler/service.py:101-153 | Claims the first due unlocked jobs by (available_at, job_id) up to the limit, one claim step each in whatever order they come back; each returned claim passes at exactly the instants up to now plus the lease |
| SchedulerService.QueriedRows | src/job_visibility/scheduler/service.py:101-298 | Which rows the claiming and the recovering query choose from, and the instants they order them by |
| SchedulerService.SchedulerService.Start | src/job_visibility/scheduler/service.py:155-170 | Is the machine's start step, and fails exactly on a stale claim |
| SchedulerService.SchedulerService.Heartbeat | src/job_visibility/scheduler/service.py:172-181 | Is the machine's heartbeat step, and returns the new expiry, which the row then holds, exactly for a passing claim |
| SchedulerService.SchedulerService.Succeed | src/job_visibility/scheduler/service.py:183-205 | Is the machine's success step, and fails exactly on a stale claim |
| SchedulerService.SchedulerService.Fail | src/job_visibility/scheduler/service.py:207-258 | Is the machine's failure step: retry, exhaustion or final failure with their events; fails exactly on a stale claim |
| SchedulerService.SchedulerService.RecoverExpiredClaims | src/job_visibility/scheduler/service.py:279-298 | Takes back the first expired unlocked claims by expiry up to the limit, ties broken in any way, and touches neither outbox nor attempts |
| SchedulerWorker.Execute | src/job_visibility/scheduler/service.py:260-277 | Start, handler, completion; stale exactly when the claim is not the job's own or its lease ends before the handler returns; otherwise the row shows how the handler left, any undeclared exception being retryable |
| SchedulerWorker.FailureCodes | src/job_visibility/scheduler/service.py:260-277 | A declared failure is reported as it is, and only an undeclared exception under the general code |
| SchedulerWorker.SchedulerWorker.RunOnce | src/job_visibility/scheduler/worker.py:38-52 | A pass recovers the first expired claims, claims the first due jobs and executes them in order up to the first stale one; the whole pass is a permitted run that completes only started attempts |
| SchedulerWorker.ExecuteIsDriven | src/job_visibility/scheduler/service.py:260-277 | Executing any issued claim is a permitted run that completes only a started attempt |
| StatusLaws.ReplayAudited | src/job_visibility/engine.py:565-612 | Over every event sequence: SUCCEEDED exactly when some attempt succeeded, version counts APPLIED decisions, a finding is active exactly while unresolved, any attempt gap has its active finding and incomplete_lifecycle |
| StatusLaws.ReplayKeepsHistory | src/job_visibility/engine.py:587-612 | Later events remove no finding, first observation, violation or success |
| StatusLaws.LeavingTerminal | src/job_visibility/engine.py:173-336 | The exact events by which each terminal status is left |
| Transitions.StatusIsEnteredLast | src/job_visibility/engine.py:139-336 | Over every event sequence: the status shown is one that some event entered, by the exact event and prior state that enter it, with no later event entering another; UNKNOWN is shown exactly as long as nothing was entered |
| Transitions.EnteredLastIsShown | src/job_visibility/engine.py:139-336 | Conversely, the status entered last is the one shown, whichever it is |
| Transitions.CancelledExactly | src/job_visibility/engine.py:331-336 | The replay shows CANCELLED exactly when a cancellation arrives while the job is not terminal and no exhaustion, start or outcome of an attempt not failed by then arrives later |
| Transitions.CompletedIsLatest | src/job_visibility/engine.py:230-336 | completed_at is the latest instant of the events that closed the job, absent when none did |
| Transitions.NextRetryExactly | src/job_visibility/engine.py:247-329 | next_retry_at is a given instant exactly when an acknowledgement set it and nothing since cleared it or set another |
| Transitions.RequestedMark | src/job_visibility/engine.py:259-317 | Which events set and clear retry_requested |
| Transitions.AcknowledgedMark | src/job_visibility/engine.py:259-329 | Which events set and clear retry_acknowledged |
| Transitions.EligibleMark | src/job_visibility/engine.py:230-329 | Which events set and clear retry_eligible |
| Transitions.RetryInstants | src/job_visibility/engine.py:259-329 | Which events write the instants of the last request and of the next retry |
| Transitions.AttemptColumns | src/job_visibility/engine.py:182-283 | Which events write each column of the attempt they name |
| Transitions.OtherAttemptsKept | src/job_visibility/engine.py:565-585 | No event changes an attempt other than the one it names, and a repeated outcome changes none |
| Transitions.FindingColumns | src/job_visibility/engine.py:587-612 | Which events raise, date and resolve each finding, and that all others leave it alone |
| Transitions.FlagColumns | src/job_visibility/engine.py:198-283 | When the lifecycle becomes incomplete, and which executions are violations |
| Transitions.DecisionTaken | src/job_visibility/engine.py:40-67 | Every event adds one decision: repeated outcomes are duplicates, what comes too late is ignored, all else is applied and counts as a version |
| Transitions.DescriptionColumns | src/job_visibility/engine.py:127-137 | The first correlation id and schedule, the last job type and reference that say anything and the greatest maximum win, over all events but repeated outcomes |
| Transitions.AttemptNamed | src/job_visibility/engine.py:565-576 | An event without an attempt number speaks of attempt 1, and an attempt first spoken of is blank before |
| Transitions.BlankJob | src/job_visibility/model.py:232-262 | Every column of a job nothing is known of |
| StatusLaws.ViolationsArePermanent | src/job_visibility/engine.py:587-605 | Leaving RETRIES_EXHAUSTED, or going from CANCELLED straight to RUNNING or SUCCEEDED, leaves its active violation at the end of every replay |
| Evidence.EvidenceOrderIndependent | src/job_visibility/engine.py:139-205 | Any reordering and duplication of the same events gives the same evidence instants and attempt numbers |
| Evidence.ReplayEvidence | src/job_visibility/engine.py:614-628 | Every evidence field of a replay is the extreme of what the events contribute, absent exactly when none does |
| Evidence.ReplayAttempts | src/job_visibility/engine.py:565-576 | The attempts of a replay are exactly those some event names |
| Engine.EngineRefinesFold | src/job_visibility/engine.py:91-112 | After any applies and reconciles every job is the fold of the reducer over its own logged events, but for findings and exact-duplicate entries |
| Engine.LogIsFirstOccurrences | src/job_visibility/engine.py:91-112 | The log is the first occurrence of each delivered event id, without the deliveries a version check rejected |
| Engine.EngineKeepsHistory | src/job_visibility/engine.py:338-403 | No later operation loses a finding, a first observation, a violation or a success |
| Engine.VisibilityEngine.Apply | src/job_visibility/engine.py:91-112 | Is the delivery step, with the decision or the conflict and its actual version |
| Engine.VerdictIsRecorded | src/job_visibility/engine.py:40-67 | The decision an apply reports is the one the aggregate records |
| Engine.DuplicateIsNoted | src/job_visibility/engine.py:91-112 | A repeated delivery changes nothing but the job's decision log, which notes it |
| Engine.VisibilityEngine.ApplyWithRetry | src/job_visibility/engine.py:114-125 | In every case the result and the state: no conflict settles at once; a conflict without retries is reported with the actual version, of an unknown job is a lookup failure, and otherwise settles the event as if delivered without a version |
| Engine.VisibilityEngine.Reconcile | src/job_visibility/engine.py:338-403 | Is the reconciliation of every job, and reports exactly the findings whose conditions hold |
| Timeouts.PassFindsWhatOverstays | src/job_visibility/engine.py:338-403 | Over any applies and reconciliations: a pass makes a finding active exactly when the delivered events overstay that finding's own configured timeout, measured from the extreme instant of its events, dates it by the pass when new, and touches no other |
| Timeouts.AcknowledgedInTime | src/job_visibility/engine.py:157-171 | A submission or retry acknowledgement ends the wait at every later instant and resolves the finding |
| Timeouts.RequestedIsLatestAsk | src/job_visibility/engine.py:285-293 | The retry request instant is the latest of the requests a job still open took up |
| Responses.ShownStatusAges | src/job_visibility/engine.py:518-533 | With nothing delivered a waiting job's shown status only goes scheduled, awaiting, overdue, overdue exactly when reconciliation would observe it |
| Responses.DelayAges | src/job_visibility/engine.py:535-557 | With nothing delivered the delay classification only worsens, and is present at all instants or none |
| Responses.ShownTimeline | src/job_visibility/engine.py:518-533 | The instants at which a waiting job's shown status changes: its schedule and the end of the grace |
| Responses.DelayTimeline | src/job_visibility/engine.py:535-549 | The instants at which the delay classification of an unstarted job changes |
| Responses.ViewColumns | src/job_visibility/edr_store/projection_worker.py:97-126 | Every column of a view is the aggregate's own, the shown ones as of its newest event |
| Cassandra.IncrementsAreCounted | src/job_visibility/scheduler/cassandra_client.py:87-129 | Under any interleaving, crashes and lost responses: checksum is start plus finalisations, each value is left at most once, and True was earned by that operation producing the returned checksum |
| Cassandra.SameObservationOnce | src/job_visibility/scheduler/cassandra_client.py:87-129 | Calls that replay one operation with one observed checksum increment at most once |
| Cassandra.SecondEffectNeedsAnother | src/job_visibility/scheduler/cassandra_client.py:94-97 | An operation increments again only after another one has incremented in between |
| Cassandra.MarkerLookupNeverMatches | src/job_visibility/scheduler/cassandra_client.py:94-97 | Whenever a call reaches the marker lookup, its marker differs from the checksum it read |
| Cassandra.CallIncrements | src/job_visibility/scheduler/cassandra_client.py:87-129 | An uninterrupted call increments exactly when its operation was not the last applied, the checksum is the observed one and no other reservation is pending; otherwise it changes no row |
| Cassandra.CallEnds | src/job_visibility/scheduler/cassandra_client.py:87-156 | Row, increments, markers and answer of an uninterrupted call for every combination of statements lost before or after they execute; a finalisation that executed but went unanswered is reread, marked and answered True |
| Cassandra.LostAnswerIsReconciled | src/job_visibility/scheduler/cassandra_client.py:115-129 | In any interleaving a call at its reread whose operation is the last applied returns True with the checksum it reads and leaves the marker; otherwise it raises |
| Cassandra.OperationCanIncrementTwice | src/job_visibility/scheduler/cassandra_client.py:87-129 | The input on which one operation increments twice |
| Cassandra.CallStepInv | src/job_visibility/scheduler/cassandra_client.py:46-55 | Every statement of every call, answered or lost, keeps the record's invariant |
| Cassandra.CassandraClient.ApplyOnce | src/job_visibility/scheduler/cassandra_client.py:87-129 | The call, statement by statement with its faults, leaves the state and answer of the machine's complete call |
| Publisher.RunInv | src/job_visibility/outbox/publisher.py:171-233 | Every state of every run keeps the invariant; a published row is final and the broker's log only grows |
| Publisher.PublishedRowsAreInTheBroker | src/job_visibility/outbox/publisher.py:204-233 | A published row's payload is in the broker at its coordinate; a holder's remembered attempts are the row's; the k-th effective failure waited between half and all of its ceiling |
| Publisher.LostLeaseIsFinal | src/job_visibility/outbox/publisher.py:204-233 | A holder whose lease was taken over never holds it again and changes no row |
| Publisher.UnpublishedBecomesLeasable | src/job_visibility/outbox/publisher.py:171-186 | An unpublished row untouched for longer than the lease and the longest backoff can be leased |
| Publisher.LeaseLasts | src/job_visibility/outbox/publisher.py:171-202 | Until the leasing instant plus the lease nobody but the holder settles the row and nobody leases it again |
| Publisher.BackoffHolds | src/job_visibility/outbox/publisher.py:218-233 | An effective failure keeps the row from everybody for its whole delay, and no longer |
| Publisher.CeilingShape | src/job_visibility/outbox/publisher.py:218-220 | The backoff ceiling starts at the initial delay and doubles with every failure, up to the maximum |
| Publisher.InsertedIsLeasable | migrations/scheduler/versions/0001_scheduler_base.py:45-55 | A new row may be leased at once |
| Publisher.OutboxPublisher.SelectDue | src/job_visibility/outbox/publisher.py:171-186 | The first leasable unlocked rows by next attempt and age, up to the batch size |
| Publisher.OutboxPublisher.MarkFailed | src/job_visibility/outbox/publisher.py:218-233 | Waits between half and all of min(retry_max, retry_initial * 2^attempts), and changes the row only while the lease is held |
| Publisher.OutboxPublisher.RunOnce | src/job_visibility/outbox/publisher.py:145-165 | Leases the first due rows and settles each: published when acknowledged and recorded, else one failure more and released; a permitted run of the machine |
| Projection.ProjectionIsTheFold | src/job_visibility/edr_store/projection_worker.py:59-137 | After any run a job with no unprojected row has in both tables exactly the fold of its journal, a rebuild changes nothing for it, and the schema's checks hold |
| Projection.Drains | src/job_visibility/edr_store/projection_worker.py:59-84 | n pending readable rows are drained by exactly ceil(n / batch_size) calls and no fewer, and then every journaled job shows its fold |
| Projection.BatchIsFirst | src/job_visibility/edr_store/projection_worker.py:59-68 | A pass takes unprojected rows in the order they were persisted, and leaves no earlier one behind |
| Projection.UndecodableRowBlocks | src/job_visibility/edr_store/projection_worker.py:97-108 | A pending row of a job with an undecodable row stays pending for ever; while it is in the batch every call changes nothing |
| Projection.RebuildShows | src/job_visibility/edr_store/projection_worker.py:86-95 | A rebuild of readable journals shows every job in full and changes nothing for a job already shown in full |
| Projection.ProjectionWorker.RunOnce | src/job_visibility/edr_store/projection_worker.py:59-84 | Fails exactly on a fault before commit or an undecodable row of a selected job, and then changes nothing; else is the machine's step and returns the batch's size |
| Projection.ProjectionWorker.Rebuild | src/job_visibility/edr_store/projection_worker.py:86-95 | Projects every job, or fails exactly on an undecodable row and changes nothing |
| Projection.ProjectionWorker.FoldJob | src/job_visibility/edr_store/projection_worker.py:97-108 | Feeding the ordered journal to a fresh engine gives the fold of the journal, or fails exactly on an undecodable row |
| Pipeline.VisibleOutcomeIsReal | src/job_visibility/edr_store/projection_worker.py:97-137 | In every state of the composed system, however far the projector lags, a visible terminal status is the scheduler's own final one and not the work of recovery, and SUCCEEDED is visible only if a success is journaled |
| Pipeline.VisibleSuccessStays | src/job_visibility/edr_store/projection_worker.py:97-137 | A visible SUCCEEDED is visible in every later state |
| Pipeline.SettledOutcome | src/job_visibility/edr_store/projection_worker.py:59-137 | Once none of a job's rows is unprojected, SUCCEEDED is visible exactly when its event is journaled, the other two exactly when no start journaled after the closing event reopens the job |
| Pipeline.FullDeliveryAgrees | src/job_visibility/edr_store/projection_worker.py:97-137 | Once all of a job's events are journaled, in any order, SUCCEEDED is visible exactly when the row is, evidence equals the in-order replay's and the attempts are the scheduler's |
| Pipeline.InOrderDeliveryMatchesTables | src/job_visibility/edr_store/projection_worker.py:97-137 | If they were also persisted in order, the visible aggregate agrees with the scheduler's tables in everything the simulation covers |
| Pipeline.JournalComesThroughTheBroker | src/job_visibility/outbox/publisher.py:204-216 | Every journaled document is the one of its outbox event and is in the broker's log; every published row's document is at its coordinate |
| Pipeline.EmittedCopiesFoldAlike | src/job_visibility/edr_store/projection_worker.py:20-41 | Folding the wire copies of any events a run emitted is folding the events |
| Wire.RoundTrip | src/job_visibility/outbox/serialization.py:10-33 | Decoding an encoded event gives back all the wire carries, from the whole document or its canonical payload |
| Wire.DomainShows | src/job_visibility/outbox/serialization.py:11-27 | Which field of the document holds which field of the event |
| Wire.EnvelopeCarriesDigest | src/job_visibility/outbox/serialization.py:28-33 | The wire document is the hashed one with itself and its digest added |
| Wire.OptionalFieldsDefault | src/job_visibility/edr_store/projection_worker.py:20-37 | A document without its optional fields reads, with every default |
| Wire.UnreadableDocuments | src/job_visibility/edr_store/projection_worker.py:20-37 | A document without a required field, or with a number below its bound, does not read |
| Wire.PayloadPreferred | src/job_visibility/edr_store/projection_worker.py:97-108 | The projector reads the canonical payload when there is one and the document itself otherwise |
| Wire.SameDocument | src/job_visibility/outbox/serialization.py:10-33 | Two events have the same hashed document exactly when they decode alike and agree on an empty job type |
| Wire.CopyAgreesExactly | src/job_visibility/engine.py:127-137 | One event and its wire copy have the same effect, but for retrieval instants and scheduler reference, exactly when the default job type does not show |
| Wire.CopiesFoldAlike | src/job_visibility/edr_store/projection_worker.py:97-108 | For events with a job type, folding wire copies differs from folding the originals only in retrieval instants and scheduler reference |
| Polling.RetrievedOnceInOrder | src/job_visibility/simulation.py:84-110 | In any run no item is retrieved twice; a poll retrieves only due items, in order of schedule and job id, and none ahead of a smaller eligible one it leaves behind |
| Polling.PollSize | src/job_visibility/simulation.py:97-107 | How many items a poll retrieves for every requested count, zero and negative ones included |
| Polling.EventColumns | src/job_visibility/simulation.py:109-140 | Every column of the events a poll delivers |
| Polling.DefaultPollsAreChunks | src/job_visibility/simulation.py:97-110 | With a fixed clock and nothing enqueued, successive default polls are the chunks of the sorted eligible list, and exactly ceil(n / maximum) of them retrieve it all |
| Polling.StartedAreFirst | src/job_visibility/simulation.py:109-140 | A poll starts exactly the first worker_capacity selected items, and completes exactly the started ones when asked |
| Polling.NoticeOrder | src/job_visibility/simulation.py:109-140 | An item is retrieved, then started, then completed |
| Polling.PollingScheduler.RunPoll | src/job_visibility/simulation.py:87-140 | Marks and records exactly the selected prefix of the sorted eligible items, and delivers to the engine exactly their events, in order and numbered on |
| Polling.NumberedEventsAreLogged | src/job_visibility/simulation.py:36-54 | Events numbered from a counter no earlier event has reached are all new to the engine, which logs each of them in order |
| Fibonacci.PairIsFib | src/job_visibility/scheduler/handlers.py:25-38 | Fast doubling is the recurrence: pair(n) is (F(n), F(n+1)) |
| Fibonacci.CollectUpTo | src/job_visibility/scheduler/handlers.py:54-62 | The loop ends for every limit and collects exactly the F(i) up to it |
| Fibonacci.FibonacciHandler | src/job_visibility/scheduler/handlers.py:47-69 | Refuses exactly the limits other than integers in 0..10000, takes 10000 when there is none, and reports count, last value with F(count - 1) <= limit < F(count), and the digest of exactly those numbers |

## Left out

- Pipeline.FullDeliveryAgrees: says nothing of FAILED, RETRIES_EXHAUSTED, the retry fields and completed_at under reordering, which depend on the order; the two statuses are settled by Pipeline.SettledOutcome.
- Delivery.FailedExactly: covers the events the scheduler emits for one job, not submission failures, rejections, cancellations or several final failures mixed in; StatusLaws.LeavingTerminal says for every event when FAILED is left.
- Polling.PollingScheduler.RunPoll: events carry no poll id, batch position or batch limit.
- SchedulerWorker.SchedulerWorker.RunOnce: describes a pass with no other worker's transaction between its own; Runs covers every interleaving of the transactions themselves.
- SchedulerService.SchedulerService.Fail: the clock reading before the fenced update is a parameter; the machine asks only that it lies between the claim and now.
- Publisher.OutboxPublisher.SelectDue: leaves ties open, as the query does.
- Publisher.OutboxPublisher.RunOnce: describes a pass with no other publisher's step between its own; the machine covers every interleaving.
- Projection.ProjectionWorker.RunOnce: marks its rows projected after the loop, which one transaction does not make visible; SKIP LOCKED between projectors is not modelled, the transactions being serialised.
- Timing.RetriesWait: for the default retry delay; the constructor accepts any other function.
- Cassandra.CassandraClient.ApplyOnce: describes a call with no other call's statement in between; the machine covers every interleaving.
- Wire.EventFromWire: a present field of a type the encoder never writes is an error, where the reader would pass some of them on.
- Reducer: the handlers update a private copy in the source and are functions here, so aliasing inside the copy is not modelled.
- The text of findings and decisions, result_summary, lease_owner and last_error.
- Event fields nobody in the model reads: source system, trace id, payload reference, poll id, batch position and limit, error message.
- next_attempt_number, lifecycle classification, search and the delay durations of a response: single-field computations.
- projection_decisions and reconciliation_findings: their conflict clauses keep older rows, so they are not the fold.
- The handler registry and the printing handler.
- Transport of the simulation: its duplicates, drops and reorderings are deliveries like any other in Delivery and Pipeline.
- Kafka, Schema Registry, SQLAlchemy and driver internals, JSON text, SHA-256 and UUID generation.
- HTTP routes, command line, configuration, fault hooks, observability, locks of operating-system threads.

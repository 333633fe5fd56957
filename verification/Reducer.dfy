/** The lifecycle reducer of engine.py.

The source copies the aggregate and lets one handler per event type update the private copy; here each
handler maps the aggregate to its updated value.
*/
module Reducer {
  import opened Model

  /** The aggregate after a handler ran, and whether the handler reports the event as applied. */
  datatype Projection = Projection(job: JobVisibility, changed: bool)

  /** `event.attempt_number or 1`. */
  function AttemptOf(e: Event): nat {
    if e.attemptNumber == 0 then 1 else e.attemptNumber
  }

  /** `event.poll_time or event.event_time`. */
  function RetrievalTime(e: Event): Time {
    if e.pollTime.Some? then e.pollTime.value else e.eventTime
  }

  // Findings

  function Raise(findings: map<FindingCode, Finding>, code: FindingCode, at: Time): map<FindingCode, Finding> {
    findings[code :=
      if code in findings then Finding(findings[code].firstObservedAt, true, None) else Finding(at, true, None)]
  }

  function RaiseIf(raised: bool, findings: map<FindingCode, Finding>, code: FindingCode, at: Time)
    : map<FindingCode, Finding>
  {
    if raised then Raise(findings, code, at) else findings
  }

  function Resolve(findings: map<FindingCode, Finding>, code: FindingCode, at: Time): map<FindingCode, Finding> {
    if code in findings && findings[code].active
    then findings[code := Finding(findings[code].firstObservedAt, false, Some(at))]
    else findings
  }

  // Attempts

  predicate MissingPredecessor(attempts: map<nat, Attempt>, number: nat) {
    exists m | 1 <= m < number :: m !in attempts
  }

  /** The attempt an event speaks about, created blank when it is first mentioned. */
  function AttemptFor(job: JobVisibility, e: Event): Attempt {
    if AttemptOf(e) in job.attempts then job.attempts[AttemptOf(e)] else NewAttempt(AttemptOf(e))
  }

  /** The gap finding of `_attempt`. */
  function GapFindings(job: JobVisibility, e: Event): map<FindingCode, Finding> {
    RaiseIf(MissingPredecessor(job.attempts, AttemptOf(e)), job.findings, AttemptSequenceGap, e.ingestionTime)
  }

  function Incomplete(job: JobVisibility, e: Event, also: bool): Flags {
    job.flags.(incomplete := job.flags.incomplete || MissingPredecessor(job.attempts, AttemptOf(e)) || also)
  }

  predicate IsSemanticDuplicate(job: JobVisibility, e: Event) {
    || (e.eventType.ExecutionSucceeded? && AttemptFor(job, e).status.AttemptSucceeded?)
    || (e.eventType.ExecutionFailed? && AttemptFor(job, e).status.AttemptFailed?)
  }

  /** The event types whose handlers open an attempt. */
  predicate Touches(e: Event) {
    e.eventType.ItemRetrieved? || e.eventType.ExecutionStarted? || e.eventType.ExecutionSucceeded?
    || e.eventType.ExecutionFailed?
  }

  // Handlers

  function OnCreated(job: JobVisibility, e: Event): Projection {
    Projection(
      job.(milestones := job.milestones.(createdAt := Earliest(job.milestones.createdAt, Some(e.eventTime))),
           status := if job.status.Unknown? then Created else job.status),
      true)
  }

  function OnSubmissionRequested(job: JobVisibility, e: Event): Projection {
    Projection(
      job.(milestones := job.milestones.(submissionRequestedAt :=
             Earliest(job.milestones.submissionRequestedAt, Some(e.eventTime))),
           status := if job.status.Terminal() || job.status.Running? || job.status.RetryPending?
                        || job.status.RetryScheduled?
                     then job.status else PendingSubmission),
      true)
  }

  function OnSubmissionAcknowledged(job: JobVisibility, e: Event): Projection {
    Projection(
      job.(milestones := job.milestones.(acknowledgedAt :=
             Earliest(job.milestones.acknowledgedAt, Some(e.eventTime))),
           status := if job.status.Terminal() || job.status.Running? || job.status.RetryPending?
                        || job.status.RetryScheduled? || job.status.AwaitingExecution?
                     then job.status else Scheduled,
           findings := Resolve(job.findings, SchedulerAckTimeout, e.ingestionTime)),
      true)
  }

  function OnSubmissionFailed(job: JobVisibility, e: Event): Projection {
    if job.status.Terminal() then Projection(job, false)
    else Projection(job.(status := Failed, completedAt := Latest(job.completedAt, Some(e.eventTime))), true)
  }

  function RetrievedAttempt(a: Attempt, at: Time): Attempt {
    a.(retrievedAt := Earliest(a.retrievedAt, Some(at)),
       status := if a.status.AttemptUnknown? then AttemptRetrieved else a.status)
  }

  function OnItemRetrieved(job: JobVisibility, e: Event): Projection {
    Projection(
      job.(attempts := job.attempts[AttemptOf(e) := RetrievedAttempt(AttemptFor(job, e), RetrievalTime(e))],
           findings := GapFindings(job, e),
           flags := Incomplete(job, e, false),
           milestones := job.milestones.(retrievedAt :=
             Earliest(job.milestones.retrievedAt, Some(RetrievalTime(e)))),
           status := if job.status.Terminal() || job.status.Running? then job.status else AwaitingExecution),
      true)
  }

  function StartedAttempt(a: Attempt, at: Time): Attempt {
    a.(startedAt := Earliest(a.startedAt, Some(at)))
  }

  /** A start that only backfills: the outcome it belongs to is already recorded. */
  predicate StartOnlyBackfills(job: JobVisibility, e: Event) {
    || AttemptFor(job, e).status.AttemptSucceeded?
    || job.status.Succeeded?
    || (AttemptFor(job, e).status.AttemptFailed? && job.status.Failed?)
  }

  function OnExecutionStarted(job: JobVisibility, e: Event): Projection {
    var begun := StartedAttempt(AttemptFor(job, e), e.eventTime);
    var flags := Incomplete(job, e, AttemptFor(job, e).retrievedAt.None?);
    var milestones := job.milestones.(startedAt := Earliest(job.milestones.startedAt, Some(e.eventTime)));
    if StartOnlyBackfills(job, e) then
      Projection(
        job.(attempts := job.attempts[AttemptOf(e) := begun],
             findings := GapFindings(job, e),
             flags := flags,
             milestones := milestones),
        true)
    else
      Projection(
        job.(attempts := job.attempts[AttemptOf(e) := begun.(status := AttemptRunning)],
             findings := RaiseIf(job.status.Exhausted?,
                                 RaiseIf(job.status.Cancelled?, GapFindings(job, e),
                                         ExecutedAfterCancel, e.ingestionTime),
                                 ExecutionAfterExhaustion, e.ingestionTime),
             flags := flags.(cancellationViolation := flags.cancellationViolation || job.status.Cancelled?,
                             exhaustedViolation := flags.exhaustedViolation || job.status.Exhausted?),
             milestones := milestones,
             status := Running),
        true)
  }

  /** A conflicting outcome: only the conflict is recorded, besides the attempt's existence. */
  function Conflicting(job: JobVisibility, e: Event): Projection {
    Projection(
      job.(attempts := job.attempts[AttemptOf(e) := AttemptFor(job, e)],
           findings := Raise(GapFindings(job, e), ConflictingOutcome, e.ingestionTime),
           flags := Incomplete(job, e, true)),
      true)
  }

  function SucceededAttempt(a: Attempt, e: Event): Attempt {
    a.(status := AttemptSucceeded,
       completedAt := Latest(a.completedAt, Some(e.eventTime)),
       resultCode := if e.resultCode.Some? && e.resultCode.value != "" then e.resultCode else Some("SUCCESS"))
  }

  function OnExecutionSucceeded(job: JobVisibility, e: Event): Projection {
    var a := AttemptFor(job, e);
    if a.status.AttemptFailed? || (job.status.Terminal() && !job.status.Succeeded? && !job.status.Cancelled?)
    then Conflicting(job, e)
    else
      var flags := Incomplete(job, e, a.startedAt.None?);
      Projection(
        job.(attempts := job.attempts[AttemptOf(e) := SucceededAttempt(a, e)],
             findings := RaiseIf(job.status.Cancelled?, GapFindings(job, e), ExecutedAfterCancel, e.ingestionTime),
             flags := flags.(cancellationViolation := flags.cancellationViolation || job.status.Cancelled?),
             completedAt := Latest(job.completedAt, Some(e.eventTime)),
             status := Succeeded,
             retry := job.retry.(eligible := false, nextRetryAt := None)),
        true)
  }

  function FailedAttempt(a: Attempt, e: Event): Attempt {
    a.(status := AttemptFailed,
       completedAt := Latest(a.completedAt, Some(e.eventTime)),
       retryable := e.retryable,
       errorCode := e.errorCode)
  }

  function OnExecutionFailed(job: JobVisibility, e: Event): Projection {
    var a := AttemptFor(job, e);
    if a.status.AttemptSucceeded? || (job.status.Terminal() && !job.status.Cancelled?)
    then Conflicting(job, e)
    else
      Projection(
        job.(attempts := job.attempts[AttemptOf(e) := FailedAttempt(a, e)],
             findings := GapFindings(job, e),
             flags := Incomplete(job, e, a.startedAt.None?),
             completedAt := Latest(job.completedAt, Some(e.eventTime)),
             lastFailure := LastFailure(Latest(job.lastFailure.at, Some(e.eventTime)), e.errorCode),
             retry := RetryState(false, false, e.retryable == Some(true), job.retry.requestedAt, None),
             status := if e.retryable == Some(true) then RetryPending else Failed),
        true)
  }

  function OnRetryRequested(job: JobVisibility, e: Event): Projection {
    if job.status.Terminal() then Projection(job, false)
    else
      Projection(
        job.(retry := RetryState(true, false, job.retry.eligible,
                                 Latest(job.retry.requestedAt, Some(e.eventTime)), None),
             status := RetryPending),
        true)
  }

  function OnRetryAcknowledged(job: JobVisibility, e: Event): Projection {
    Projection(
      job.(retry := RetryState(true, true, job.retry.eligible, job.retry.requestedAt,
                               Or(e.nextRetryAt, job.retry.nextRetryAt)),
           findings := Resolve(job.findings, RetryAckTimeout, e.ingestionTime),
           status := if job.status.Terminal() || job.status.Running? then job.status else RetryScheduled),
      true)
  }

  function OnRetryRejected(job: JobVisibility, e: Event): Projection {
    if job.status.Terminal() then Projection(job, false)
    else Projection(job.(retry := RetryState(true, false, false, job.retry.requestedAt, None), status := Failed), true)
  }

  function OnRetriesExhausted(job: JobVisibility, e: Event): Projection {
    if job.status.Succeeded? then Projection(job, false)
    else
      Projection(
        job.(status := Exhausted,
             retry := job.retry.(eligible := false, acknowledged := false, nextRetryAt := None),
             completedAt := Latest(job.completedAt, Some(e.eventTime))),
        true)
  }

  function OnCancelled(job: JobVisibility, e: Event): Projection {
    if job.status.Terminal() then Projection(job, false)
    else Projection(job.(status := Cancelled, completedAt := Latest(job.completedAt, Some(e.eventTime))), true)
  }

  function Handle(job: JobVisibility, e: Event): Projection {
    match e.eventType
    case JobCreated => OnCreated(job, e)
    case SubmissionRequested => OnSubmissionRequested(job, e)
    case SubmissionAcknowledged => OnSubmissionAcknowledged(job, e)
    case SubmissionFailed => OnSubmissionFailed(job, e)
    case ItemRetrieved => OnItemRetrieved(job, e)
    case ExecutionStarted => OnExecutionStarted(job, e)
    case ExecutionSucceeded => OnExecutionSucceeded(job, e)
    case ExecutionFailed => OnExecutionFailed(job, e)
    case RetryRequested => OnRetryRequested(job, e)
    case RetryAcknowledged => OnRetryAcknowledged(job, e)
    case RetryRejected => OnRetryRejected(job, e)
    case RetriesExhausted => OnRetriesExhausted(job, e)
    case JobCancelled => OnCancelled(job, e)
  }

  /** The descriptive fields every projected event may fill in. */
  function Describe(d: Description, e: Event): Description {
    Description(
      if d.correlationId != "" then d.correlationId else e.correlationId,
      if e.jobType != "" then e.jobType else d.jobType,
      Or(d.scheduledAt, e.scheduledAt),
      if e.schedulerReference.Some? && e.schedulerReference.value != "" then e.schedulerReference
      else d.schedulerReference,
      Max(d.maxAttempts, e.maxAttempts))
  }

  function Refresh(f: Freshness, e: Event): Freshness {
    Freshness(Latest(f.lastEventTime, Some(e.eventTime)), Latest(f.dataAsOf, Some(e.ingestionTime)))
  }

  /** The decision recorded for one event, the version bump and the freshness marks. */
  function Conclude(job: JobVisibility, kind: DecisionKind, e: Event): JobVisibility {
    job.(version := if kind.Applied? then job.version + 1 else job.version,
         decisions := job.decisions + [Decision(e.eventId, kind)],
         freshness := Refresh(job.freshness, e))
  }

  /** The verdict on one event: a semantic duplicate is not projected at all. */
  function Reduce(job: JobVisibility, e: Event): JobVisibility {
    if IsSemanticDuplicate(job, e) then Conclude(job, SemanticDuplicate, e)
    else
      var p := Handle(job.(description := Describe(job.description, e)), e);
      Conclude(p.job, if p.changed then Applied else Ignored, e)
  }

  /** The aggregate after a list of events, from any starting aggregate. */
  function ReduceAll(job: JobVisibility, es: seq<Event>): JobVisibility {
    Fold(Reduce, job, es)
  }

  /** The left fold of the reducer over a job's events, starting from an empty aggregate. */
  function Replay(id: JobId, es: seq<Event>): JobVisibility {
    ReduceAll(NewJob(id), es)
  }

  lemma ReplayOne(id: JobId, es: seq<Event>, e: Event)
    ensures Replay(id, es + [e]) == Reduce(Replay(id, es), e)
  {
    assert (es + [e])[..|es|] == es;
  }

  lemma ReplayAppend(id: JobId, es: seq<Event>, fs: seq<Event>)
    ensures Replay(id, es + fs) == ReduceAll(Replay(id, es), fs)
  {
    FoldAppend(Reduce, NewJob(id), es, fs);
  }
}

/** The lifecycle vocabulary of model.py: events, attempts, findings and the visibility aggregate.

Text identifiers (job ids, event ids, claim tokens) are natural numbers, standing for their rank in
the database's text order.  Instants are integers read from a monotone clock.
*/
module Model {
  type Time = int
  type JobId = nat
  type EventId = nat
  type Positive = n: nat | 1 <= n witness 1

  datatype Option<+T> = None | Some(value: T)

  datatype EventType =
    | JobCreated
    | SubmissionRequested
    | SubmissionAcknowledged
    | SubmissionFailed
    | ItemRetrieved
    | ExecutionStarted
    | ExecutionSucceeded
    | ExecutionFailed
    | RetryRequested
    | RetryAcknowledged
    | RetryRejected
    | RetriesExhausted
    | JobCancelled

  /** The fields of an EDR that the reducer or the wire format carries. */
  datatype Event = Event(
    eventId: EventId,
    eventType: EventType,
    eventTime: Time,
    ingestionTime: Time,
    jobId: JobId,
    correlationId: string,
    jobType: string,
    schedulerReference: Option<string>,
    scheduledAt: Option<Time>,
    attemptNumber: nat,
    retryable: Option<bool>,
    maxAttempts: Positive,
    nextRetryAt: Option<Time>,
    resultCode: Option<string>,
    errorCode: Option<string>,
    pollTime: Option<Time>)

  datatype Status =
    | Unknown
    | Created
    | PendingSubmission
    | Scheduled
    | AwaitingExecution
    | Running
    | RetryPending
    | RetryScheduled
    | Succeeded
    | Failed
    | Exhausted
    | Overdue
    | Cancelled
  {
    predicate Terminal() {
      Succeeded? || Failed? || Exhausted? || Cancelled?
    }
  }

  datatype AttemptStatus =
    | AttemptUnknown
    | AttemptRetrieved
    | AttemptRunning
    | AttemptSucceeded
    | AttemptFailed

  datatype Attempt = Attempt(
    attemptNumber: nat,
    status: AttemptStatus,
    retrievedAt: Option<Time>,
    startedAt: Option<Time>,
    completedAt: Option<Time>,
    retryable: Option<bool>,
    errorCode: Option<string>,
    resultCode: Option<string>)

  function NewAttempt(number: nat): Attempt {
    Attempt(number, AttemptUnknown, None, None, None, None, None, None)
  }

  datatype FindingCode =
    | SchedulerAckTimeout
    | RunningTimeout
    | RetryAckTimeout
    | StartOverdue
    | AttemptSequenceGap
    | ExecutedAfterCancel
    | ExecutionAfterExhaustion
    | ConflictingOutcome

  datatype Finding = Finding(firstObservedAt: Time, active: bool, resolvedAt: Option<Time>)

  datatype DecisionKind = Applied | Ignored | SemanticDuplicate | ExactDuplicate

  datatype Decision = Decision(eventId: EventId, kind: DecisionKind)

  datatype Description = Description(
    correlationId: string,
    jobType: string,
    scheduledAt: Option<Time>,
    schedulerReference: Option<string>,
    maxAttempts: Positive)

  datatype Milestones = Milestones(
    createdAt: Option<Time>,
    submissionRequestedAt: Option<Time>,
    acknowledgedAt: Option<Time>,
    retrievedAt: Option<Time>,
    startedAt: Option<Time>)

  datatype RetryState = RetryState(
    requested: bool,
    acknowledged: bool,
    eligible: bool,
    requestedAt: Option<Time>,
    nextRetryAt: Option<Time>)

  datatype LastFailure = LastFailure(at: Option<Time>, errorCode: Option<string>)

  datatype Flags = Flags(cancellationViolation: bool, exhaustedViolation: bool, incomplete: bool)

  datatype Freshness = Freshness(lastEventTime: Option<Time>, dataAsOf: Option<Time>)

  /** The aggregate, its fields grouped by what they describe. */
  datatype JobVisibility = JobVisibility(
    jobId: JobId,
    description: Description,
    status: Status,
    milestones: Milestones,
    completedAt: Option<Time>,
    retry: RetryState,
    lastFailure: LastFailure,
    flags: Flags,
    freshness: Freshness,
    version: nat,
    attempts: map<nat, Attempt>,
    findings: map<FindingCode, Finding>,
    decisions: seq<Decision>)
  {
    function CompletedAttempts(): nat {
      |set n | n in attempts && (attempts[n].status.AttemptSucceeded? || attempts[n].status.AttemptFailed?)|
    }
  }

  function NewJob(id: JobId): JobVisibility {
    JobVisibility(id, Description("", "GENERIC", None, None, 3), Unknown,
                  Milestones(None, None, None, None, None), None,
                  RetryState(false, false, false, None, None), LastFailure(None, None),
                  Flags(false, false, false), Freshness(None, None), 0, map[], map[], [])
  }

  function Earliest(left: Option<Time>, right: Option<Time>): Option<Time> {
    if left.None? then right
    else if right.None? then left
    else if right.value < left.value then right else left
  }

  function Latest(left: Option<Time>, right: Option<Time>): Option<Time> {
    if left.None? then right
    else if right.None? then left
    else if right.value > left.value then right else left
  }

  /** Python's `left or right` on an optional value that is never falsy when present. */
  function Or<T>(left: Option<T>, right: Option<T>): Option<T> {
    if left.Some? then left else right
  }

  function Max(a: nat, b: nat): nat {
    if a < b then b else a
  }

  predicate Distinct<T(==)>(xs: seq<T>) {
    forall i, k | 0 <= i < k < |xs| :: xs[i] != xs[k]
  }

  predicate DistinctIds(es: seq<Event>) {
    forall i, k | 0 <= i < k < |es| :: es[i].eventId != es[k].eventId
  }

  /** The left fold of a step function over a sequence. */
  function Fold<S, E>(f: (S, E) -> S, start: S, es: seq<E>): S {
    if es == [] then start else f(Fold(f, start, es[..|es| - 1]), es[|es| - 1])
  }

  lemma {:induction false} FoldAppend<S, E>(f: (S, E) -> S, start: S, es: seq<E>, fs: seq<E>)
    ensures Fold(f, start, es + fs) == Fold(f, Fold(f, start, es), fs)
  {
    if fs == [] {
      assert es + fs == es;
    } else {
      assert (es + fs)[..|es + fs| - 1] == es + fs[..|fs| - 1];
      FoldAppend(f, start, es, fs[..|fs| - 1]);
    }
  }

  /** The events of one job, in their order. */
  function Trace(es: seq<Event>, id: JobId): seq<Event> {
    if es == [] then []
    else
      var before, last := Trace(es[..|es| - 1], id), es[|es| - 1];
      if last.jobId == id then before + [last] else before
  }

  lemma {:induction false} TraceConcat(es: seq<Event>, fs: seq<Event>, id: JobId)
    ensures Trace(es + fs, id) == Trace(es, id) + Trace(fs, id)
  {
    if fs == [] {
      assert es + fs == es;
    } else {
      assert (es + fs)[..|es + fs| - 1] == es + fs[..|fs| - 1];
      TraceConcat(es, fs[..|fs| - 1], id);
    }
  }

  lemma {:induction false} TraceOfJob(es: seq<Event>, owner: JobId, id: JobId)
    requires forall e | e in es :: e.jobId == owner
    ensures Trace(es, id) == if id == owner then es else []
  {
    if es != [] {
      TraceOfJob(es[..|es| - 1], owner, id);
      assert es[..|es| - 1] + [es[|es| - 1]] == es;
    }
  }

  lemma {:induction false} TraceElements(es: seq<Event>, id: JobId, e: Event)
    ensures e in Trace(es, id) <==> e in es && e.jobId == id
  {
    if es != [] {
      TraceElements(es[..|es| - 1], id, e);
      assert es[..|es| - 1] + [es[|es| - 1]] == es;
    }
  }
}

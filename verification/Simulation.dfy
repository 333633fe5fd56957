/** The reducer simulates the scheduler: replaying a job's outbox in order reproduces its tables. */
module Simulation {
  import opened Model
  import opened Reducer
  import opened Scheduler
  import opened SchedulerLaws

  function ShownAttempt(a: AttemptRow): AttemptStatus {
    match a.outcome
    case Some(OutcomeSucceeded) => AttemptSucceeded
    case Some(OutcomeFailed) => AttemptFailed
    case None => if a.startedAt.Some? then AttemptRunning else AttemptRetrieved
  }

  /** A projected attempt equals its row, except that it keeps the first start where the row keeps the last. */
  predicate AttemptAgrees(n: nat, a: AttemptRow, v: Attempt) {
    && v.attemptNumber == n
    && v.status == ShownAttempt(a)
    && v.retrievedAt == Some(a.claimedAt)
    && v.startedAt.Some? == a.startedAt.Some?
    && (a.startedAt.Some? ==> v.startedAt.value <= a.startedAt.value)
    && v.completedAt == a.completedAt
    && v.retryable == a.retryable
    && v.errorCode == a.errorCode
  }

  predicate InFlight(shown: Status) {
    shown.AwaitingExecution? || shown.Running?
  }

  /** The recorded status for a row whose newest attempt has, or has not, an outcome. */
  predicate StatusAgrees(row: RowStatus, closed: bool, shown: Status) {
    match row
    case RowPending => shown.PendingSubmission?
    case RowClaimed => InFlight(shown)
    case RowRunning => shown.Running?
    case RowRetryWait => if closed then shown.RetryScheduled? else InFlight(shown)
    case RowSucceeded => shown.Succeeded?
    case RowFailed => shown.Failed?
    case RowExhausted => if closed then shown.Exhausted? else InFlight(shown)
  }

  /** The newest attempt has an outcome: the row was last released by `succeed` or `fail`, not by recovery. */
  predicate Closed(s: JobState) {
    s.row.attemptNumber in s.attempts && s.attempts[s.row.attemptNumber].outcome.Some?
  }

  /** Some attempt was completed without ever being started. */
  ghost predicate CompletedUnstarted(attempts: map<nat, AttemptRow>) {
    exists n :: n in attempts && attempts[n].outcome.Some? && attempts[n].startedAt.None?
  }

  ghost predicate LastOutcome(attempts: map<nat, AttemptRow>, m: nat) {
    && m in attempts && attempts[m].outcome.Some?
    && forall k | k in attempts && m < k :: attempts[k].outcome.None?
  }

  /** The pending retry instant is the one the latest failed attempt row holds. */
  ghost predicate RetryAgrees(attempts: map<nat, AttemptRow>, next: Option<Time>) {
    && (forall m | LastOutcome(attempts, m) :: next == attempts[m].nextRetryAt)
    && ((forall n | n in attempts :: attempts[n].outcome.None?) ==> next.None?)
  }

  predicate HeaderAgrees(r: JobRow, j: JobVisibility) {
    && j.description ==
       Description(r.spec.correlationId, r.spec.jobType, Some(r.spec.scheduledAt), None, Max(3, r.spec.maxAttempts))
    && j.milestones.createdAt == Some(r.createdAt)
    && j.milestones.submissionRequestedAt == Some(r.createdAt)
    && j.milestones.acknowledgedAt.None?
  }

  ghost predicate AttemptsAgree(attempts: map<nat, AttemptRow>, shown: map<nat, Attempt>) {
    && shown.Keys == attempts.Keys
    && forall n | n in attempts :: AttemptAgrees(n, attempts[n], shown[n])
  }

  /** The simulation relation between a job's rows and a visibility aggregate. */
  ghost predicate Agrees(now: Time, s: JobState, j: JobVisibility) {
    && ValidSpec(s.row.spec)
    && HeaderAgrees(s.row, j)
    && AttemptsAgree(s.attempts, j.attempts)
    && StatusAgrees(s.row.status, Closed(s), j.status)
    && RetryAgrees(s.attempts, j.retry.nextRetryAt)
    && j.findings == map[]
    && !j.flags.cancellationViolation && !j.flags.exhaustedViolation
    && (j.flags.incomplete <==> CompletedUnstarted(s.attempts))
    && (j.completedAt.Some? ==> j.completedAt.value <= now)
    && (Closed(s) ==> j.completedAt == s.attempts[s.row.attemptNumber].completedAt)
    && j.version == |s.trace|
  }

  // Pieces of the relation under one update of an attempt

  lemma AttemptsUpdate(attempts: map<nat, AttemptRow>, shown: map<nat, Attempt>, n: nat, a: AttemptRow, v: Attempt)
    requires AttemptsAgree(attempts, shown) && AttemptAgrees(n, a, v)
    ensures AttemptsAgree(attempts[n := a], shown[n := v])
  {
  }

  lemma RetryKept(attempts: map<nat, AttemptRow>, next: Option<Time>, n: nat, a: AttemptRow)
    requires RetryAgrees(attempts, next) && a.outcome.None?
    requires n in attempts ==> attempts[n].outcome.None?
    ensures RetryAgrees(attempts[n := a], next)
  {
    var after := attempts[n := a];
    forall m: nat | LastOutcome(after, m) ensures LastOutcome(attempts, m) {
      forall k | k in attempts && m < k ensures attempts[k].outcome.None? {
        assert k in after;
      }
    }
    if forall k | k in after :: after[k].outcome.None? {
      forall k | k in attempts ensures attempts[k].outcome.None? {
        assert k in after;
      }
    }
  }

  lemma RetryClosed(attempts: map<nat, AttemptRow>, n: nat, a: AttemptRow)
    requires a.outcome.Some? && forall k | k in attempts :: k <= n
    ensures RetryAgrees(attempts[n := a], a.nextRetryAt)
  {
    assert attempts[n := a][n].outcome.Some?;
  }

  lemma UnstartedUpdate(attempts: map<nat, AttemptRow>, n: nat, a: AttemptRow)
    requires n in attempts ==> attempts[n].outcome.None?
    ensures CompletedUnstarted(attempts[n := a]) <==>
              CompletedUnstarted(attempts) || (a.outcome.Some? && a.startedAt.None?)
  {
    var after := attempts[n := a];
    if k :| k in attempts && attempts[k].outcome.Some? && attempts[k].startedAt.None? {
      assert k in after && after[k] == attempts[k];
    }
    if a.outcome.Some? && a.startedAt.None? {
      assert n in after && after[n] == a;
    }
  }

  lemma NoGap(attempts: map<nat, Attempt>, top: nat, n: nat)
    requires forall k :: k in attempts <==> 1 <= k <= top
    requires n <= top + 1
    ensures !MissingPredecessor(attempts, n)
  {
  }

  // What one scheduler event does to an aggregate whose attempts have no gap before it

  /** The parts of the aggregate no scheduler event of an attempt changes. */
  predicate SameHeader(j: JobVisibility, k: JobVisibility, e: Event) {
    && k.description == Describe(j.description, e)
    && k.milestones.createdAt == j.milestones.createdAt
    && k.milestones.submissionRequestedAt == j.milestones.submissionRequestedAt
    && k.milestones.acknowledgedAt == j.milestones.acknowledgedAt
    && k.findings == j.findings
    && k.version == j.version + 1
  }

  lemma ReduceRetrieved(j: JobVisibility, e: Event)
    requires e.eventType.ItemRetrieved? && e.pollTime.None? && e.attemptNumber > 0
    requires !MissingPredecessor(j.attempts, e.attemptNumber) && e.attemptNumber !in j.attempts
    ensures Retrieves(j, Reduce(j, e), e)
  {
  }

  /** `k` is `j` after the retrieval of a new attempt. */
  predicate Retrieves(j: JobVisibility, k: JobVisibility, e: Event) {
    && SameHeader(j, k, e)
    && k.attempts == j.attempts[e.attemptNumber := RetrievedNow(e)]
    && k.status == (if j.status.Terminal() || j.status.Running? then j.status else AwaitingExecution)
    && k.flags == j.flags && k.retry == j.retry && k.completedAt == j.completedAt
  }

  function RetrievedNow(e: Event): Attempt {
    Attempt(e.attemptNumber, AttemptRetrieved, Some(e.eventTime), None, None, None, None, None)
  }

  lemma ReduceStarted(j: JobVisibility, e: Event)
    requires e.eventType.ExecutionStarted? && e.attemptNumber > 0 && e.attemptNumber in j.attempts
    requires !MissingPredecessor(j.attempts, e.attemptNumber) && !j.status.Terminal()
    requires var v := j.attempts[e.attemptNumber]; v.retrievedAt.Some? && !v.status.AttemptSucceeded?
    ensures var k, v := Reduce(j, e), j.attempts[e.attemptNumber];
            && SameHeader(j, k, e)
            && k.attempts == j.attempts[e.attemptNumber :=
                 v.(startedAt := Earliest(v.startedAt, Some(e.eventTime)), status := AttemptRunning)]
            && k.status.Running?
            && k.flags == j.flags && k.retry == j.retry && k.completedAt == j.completedAt
  {
  }

  lemma ReduceSucceeded(j: JobVisibility, e: Event)
    requires e.eventType.ExecutionSucceeded? && e.attemptNumber > 0 && e.attemptNumber in j.attempts
    requires !MissingPredecessor(j.attempts, e.attemptNumber) && !j.status.Terminal()
    requires var v := j.attempts[e.attemptNumber]; !v.status.AttemptSucceeded? && !v.status.AttemptFailed?
    ensures var k, v := Reduce(j, e), j.attempts[e.attemptNumber];
            && SameHeader(j, k, e)
            && k.attempts == j.attempts[e.attemptNumber := SucceededAttempt(v, e)]
            && k.status.Succeeded?
            && k.flags == j.flags.(incomplete := j.flags.incomplete || v.startedAt.None?)
            && k.retry.nextRetryAt.None? && k.completedAt == Latest(j.completedAt, Some(e.eventTime))
  {
  }

  lemma ReduceFailed(j: JobVisibility, e: Event)
    requires e.eventType.ExecutionFailed? && e.attemptNumber > 0 && e.attemptNumber in j.attempts
    requires !MissingPredecessor(j.attempts, e.attemptNumber) && !j.status.Terminal()
    requires var v := j.attempts[e.attemptNumber]; !v.status.AttemptSucceeded? && !v.status.AttemptFailed?
    ensures var k, v := Reduce(j, e), j.attempts[e.attemptNumber];
            && SameHeader(j, k, e)
            && k.attempts == j.attempts[e.attemptNumber := FailedAttempt(v, e)]
            && k.status == (if e.retryable == Some(true) then RetryPending else Failed)
            && k.flags == j.flags.(incomplete := j.flags.incomplete || v.startedAt.None?)
            && k.retry.nextRetryAt.None? && k.completedAt == Latest(j.completedAt, Some(e.eventTime))
  {
  }

  /** The events that follow a failure change the status and the pending retry only. */
  lemma ReduceAftermath(j: JobVisibility, e: Event)
    requires e.eventType.RetryRequested? || e.eventType.RetryAcknowledged? || e.eventType.RetriesExhausted?
    requires j.status.RetryPending? && j.findings == map[]
    ensures var k := Reduce(j, e);
            && SameHeader(j, k, e)
            && k.attempts == j.attempts && k.flags == j.flags
            && match e.eventType
               case RetryRequested =>
                 k.status.RetryPending? && k.retry.nextRetryAt.None? && k.completedAt == j.completedAt
               case RetryAcknowledged =>
                 && k.status.RetryScheduled? && k.completedAt == j.completedAt
                 && k.retry.nextRetryAt == Or(e.nextRetryAt, j.retry.nextRetryAt)
               case _ =>
                 && k.status.Exhausted? && k.retry.nextRetryAt.None?
                 && k.completedAt == Latest(j.completedAt, Some(e.eventTime))
  {
  }

  /** The event carries the row's description. */
  predicate FromRow(r: JobRow, e: Event) {
    && ValidSpec(r.spec)
    && e.correlationId == r.spec.correlationId && e.jobType == r.spec.jobType
    && e.maxAttempts == r.spec.maxAttempts && e.schedulerReference.None?
  }

  /** Events drawn from the row's own columns leave the header as it is. */
  lemma HeaderStep(r: JobRow, j: JobVisibility, k: JobVisibility, e: Event)
    requires FromRow(r, e) && HeaderAgrees(r, j) && SameHeader(j, k, e)
    ensures HeaderAgrees(r, k)
  {
  }

  lemma ClaimShown(now: Time, lease: nat, nextId: nat, id: JobId, s: JobState, j: JobVisibility, owner: string,
                   k: JobVisibility)
    requires JobInv(now, s) && Agrees(now, s, j) && Due(now, s.row)
    requires Retrieves(j, k, ClaimChange(now, lease, nextId, id, s.row, owner).events[0])
    ensures Agrees(now, Commit(s, Some(ClaimChange(now, lease, nextId, id, s.row, owner))), k)
  {
    var n := s.row.attemptNumber + 1;
    var c := ClaimChange(now, lease, nextId, id, s.row, owner);
    HeaderStep(s.row, j, k, c.events[0]);
    AttemptsUpdate(s.attempts, j.attempts, n, c.attempt.value, RetrievedNow(c.events[0]));
    RetryKept(s.attempts, j.retry.nextRetryAt, n, c.attempt.value);
    UnstartedUpdate(s.attempts, n, c.attempt.value);
  }

  lemma ClaimAgrees(now: Time, lease: nat, nextId: nat, id: JobId, s: JobState, j: JobVisibility, owner: string)
    requires JobInv(now, s) && Agrees(now, s, j) && Due(now, s.row)
    ensures var c := ClaimChange(now, lease, nextId, id, s.row, owner);
            Agrees(now, Commit(s, Some(c)), Reduce(j, c.events[0]))
  {
    var c := ClaimChange(now, lease, nextId, id, s.row, owner);
    NoGap(j.attempts, s.row.attemptNumber, s.row.attemptNumber + 1);
    ReduceRetrieved(j, c.events[0]);
    ClaimShown(now, lease, nextId, id, s, j, owner, Reduce(j, c.events[0]));
  }

  lemma StartAgrees(now: Time, nextId: nat, id: JobId, s: JobState, j: JobVisibility, c: ClaimedJob)
    requires JobInv(now, s) && Agrees(now, s, j) && Genuine(id, s, c) && Passes(now, s.row, c)
    ensures var ch := StartChange(now, nextId, id, s, c);
            Agrees(now, Commit(s, Some(ch)), Reduce(j, ch.events[0]))
  {
    var n := c.attemptNumber;
    var ch := StartChange(now, nextId, id, s, c);
    NoGap(j.attempts, s.row.attemptNumber, n);
    ReduceStarted(j, ch.events[0]);
    HeaderStep(s.row, j, Reduce(j, ch.events[0]), ch.events[0]);
    AttemptsUpdate(s.attempts, j.attempts, n, ch.attempt.value, Reduce(j, ch.events[0]).attempts[n]);
    RetryKept(s.attempts, j.retry.nextRetryAt, n, ch.attempt.value);
    UnstartedUpdate(s.attempts, n, ch.attempt.value);
  }

  lemma SucceedAgrees(now: Time, nextId: nat, id: JobId, s: JobState, j: JobVisibility, c: ClaimedJob)
    requires JobInv(now, s) && Agrees(now, s, j) && Genuine(id, s, c) && Passes(now, s.row, c)
    ensures var ch := SucceedChange(now, nextId, id, s, c);
            Agrees(now, Commit(s, Some(ch)), Reduce(j, ch.events[0]))
  {
    var n := c.attemptNumber;
    var ch := SucceedChange(now, nextId, id, s, c);
    NoGap(j.attempts, s.row.attemptNumber, n);
    ReduceSucceeded(j, ch.events[0]);
    HeaderStep(s.row, j, Reduce(j, ch.events[0]), ch.events[0]);
    AttemptsUpdate(s.attempts, j.attempts, n, ch.attempt.value, Reduce(j, ch.events[0]).attempts[n]);
    RetryClosed(s.attempts, n, ch.attempt.value);
    UnstartedUpdate(s.attempts, n, ch.attempt.value);
  }

  /** `k` is `j` after `count` events of a failure that began with `f`. */
  ghost predicate FailShown(r: JobRow, j: JobVisibility, k: JobVisibility, f: Event, count: nat, status: Status,
                            nextRetry: Option<Time>)
    requires f.attemptNumber in j.attempts
  {
    var v := j.attempts[f.attemptNumber];
    && HeaderAgrees(r, k)
    && k.findings == map[]
    && k.version == j.version + count
    && k.attempts == j.attempts[f.attemptNumber := FailedAttempt(v, f)]
    && k.status == status
    && k.flags == j.flags.(incomplete := j.flags.incomplete || v.startedAt.None?)
    && k.retry.nextRetryAt == nextRetry
    && k.completedAt == Some(f.eventTime)
  }

  lemma FailFirst(r: JobRow, j: JobVisibility, f: Event)
    requires HeaderAgrees(r, j) && j.findings == map[] && FromRow(r, f)
    requires f.eventType.ExecutionFailed? && f.attemptNumber > 0 && f.attemptNumber in j.attempts
    requires !MissingPredecessor(j.attempts, f.attemptNumber) && !j.status.Terminal()
    requires var v := j.attempts[f.attemptNumber]; !v.status.AttemptSucceeded? && !v.status.AttemptFailed?
    requires j.completedAt.Some? ==> j.completedAt.value <= f.eventTime
    ensures FailShown(r, j, Reduce(j, f), f, 1, if f.retryable == Some(true) then RetryPending else Failed, None)
  {
    ReduceFailed(j, f);
    HeaderStep(r, j, Reduce(j, f), f);
  }

  /** A request, an acknowledgement or an exhaustion that follows the failure. */
  lemma FailNext(r: JobRow, j: JobVisibility, k: JobVisibility, f: Event, count: nat, e: Event)
    requires f.attemptNumber in j.attempts && FailShown(r, j, k, f, count, RetryPending, None) && FromRow(r, e)
    requires e.eventType.RetryRequested? || e.eventType.RetryAcknowledged? || e.eventType.RetriesExhausted?
    requires e.eventTime == f.eventTime
    ensures FailShown(r, j, Reduce(k, e), f, count + 1,
                      if e.eventType.RetryRequested? then RetryPending
                      else if e.eventType.RetryAcknowledged? then RetryScheduled else Exhausted,
                      if e.eventType.RetryAcknowledged? then e.nextRetryAt else None)
  {
    ReduceAftermath(k, e);
    HeaderStep(r, k, Reduce(k, e), e);
  }

  /** What the whole batch of events of one `fail` does. */
  lemma FailReduced(now: Time, nextId: nat, id: JobId, j: JobVisibility, r: JobRow, c: ClaimedJob,
                    failure: HandlerFailure, asked: Time)
    requires ValidSpec(r.spec) && HeaderAgrees(r, j) && c.spec == r.spec && j.findings == map[]
    requires c.attemptNumber > 0 && c.attemptNumber in j.attempts
    requires !MissingPredecessor(j.attempts, c.attemptNumber) && !j.status.Terminal()
    requires var v := j.attempts[c.attemptNumber]; !v.status.AttemptSucceeded? && !v.status.AttemptFailed?
    requires j.completedAt.Some? ==> j.completedAt.value <= now
    ensures var es := FailEvents(now, nextId, id, c, failure, asked);
            FailShown(r, j, ReduceAll(j, es), es[0], |es|,
                      if WillRetry(c, failure) then RetryScheduled else if failure.retryable then Exhausted else Failed,
                      RetryTime(c, failure, asked))
  {
    var es := FailEvents(now, nextId, id, c, failure, asked);
    FailFirst(r, j, es[0]);
    if |es| == 1 {
      OneEvent(j, es);
    } else if |es| == 2 {
      TwoEvents(j, es);
      FailNext(r, j, Reduce(j, es[0]), es[0], 1, es[1]);
    } else {
      ThreeEvents(j, es);
      FailNext(r, j, Reduce(j, es[0]), es[0], 1, es[1]);
      FailNext(r, j, Reduce(Reduce(j, es[0]), es[1]), es[0], 2, es[2]);
    }
  }

  lemma FailAgrees(now: Time, nextId: nat, id: JobId, s: JobState, j: JobVisibility, c: ClaimedJob,
                   failure: HandlerFailure, asked: Time)
    requires JobInv(now, s) && Agrees(now, s, j) && Permitted(now, id, s, JobAction.Fail(c, failure, asked))
    requires Passes(now, s.row, c)
    ensures var ch := FailChange(now, nextId, id, s, c, failure, asked);
            Agrees(now, Commit(s, Some(ch)), ReduceAll(j, ch.events))
  {
    var n := c.attemptNumber;
    var ch := FailChange(now, nextId, id, s, c, failure, asked);
    NoGap(j.attempts, s.row.attemptNumber, n);
    FailReduced(now, nextId, id, j, s.row, c, failure, asked);
    AttemptsUpdate(s.attempts, j.attempts, n, ch.attempt.value, FailedAttempt(j.attempts[n], ch.events[0]));
    RetryClosed(s.attempts, n, ch.attempt.value);
    UnstartedUpdate(s.attempts, n, ch.attempt.value);
  }

  /** Simulation, one step: whatever transaction runs, replaying the longer outbox still matches the rows. */
  lemma StepAgrees(now: Time, lease: nat, nextId: nat, id: JobId, s: JobState, a: JobAction)
    requires JobInv(now, s) && Agrees(now, s, Replay(id, s.trace)) && Permitted(now, id, s, a)
    ensures var t := JobStep(now, lease, nextId, id, s, a); Agrees(now, t, Replay(id, t.trace))
  {
    var j := Replay(id, s.trace);
    var change := Transaction(now, lease, nextId, id, s, a);
    if change.Some? {
      var es := change.value.events;
      ReplayAppend(id, s.trace, es);
      match a {
        case Claim(owner) => ClaimAgrees(now, lease, nextId, id, s, j, owner); OneEvent(j, es);
        case Start(c) => StartAgrees(now, nextId, id, s, j, c); OneEvent(j, es);
        case Succeed(c) => SucceedAgrees(now, nextId, id, s, j, c); OneEvent(j, es);
        case Fail(c, failure, asked) => FailAgrees(now, nextId, id, s, j, c, failure, asked);
        case Heartbeat(_) => SilentAgrees(now, s, j, change.value);
        case Recover => SilentAgrees(now, s, j, change.value);
      }
    }
  }

  lemma OneEvent(j: JobVisibility, es: seq<Event>)
    requires |es| == 1
    ensures ReduceAll(j, es) == Reduce(j, es[0])
  {
    assert ReduceAll(j, es[..0]) == j;
  }

  lemma TwoEvents(j: JobVisibility, es: seq<Event>)
    requires |es| == 2
    ensures ReduceAll(j, es) == Reduce(Reduce(j, es[0]), es[1])
  {
    OneEvent(j, es[..1]);
  }

  lemma ThreeEvents(j: JobVisibility, es: seq<Event>)
    requires |es| == 3
    ensures ReduceAll(j, es) == Reduce(Reduce(Reduce(j, es[0]), es[1]), es[2])
  {
    TwoEvents(j, es[..2]);
  }

  /** A heartbeat or a recovery writes no event and leaves the attempts alone. */
  lemma SilentAgrees(now: Time, s: JobState, j: JobVisibility, change: Change)
    requires JobInv(now, s) && Agrees(now, s, j)
    requires change.attempt.None? && change.events == []
    requires change.row.spec == s.row.spec && change.row.createdAt == s.row.createdAt
    requires change.row.attemptNumber == s.row.attemptNumber
    requires s.row.status.Held()
    requires change.row.status == s.row.status || change.row.status.RowRetryWait? || change.row.status.RowExhausted?
    ensures Agrees(now, Commit(s, Some(change)), j)
  {
  }

  lemma SubmittedAgrees(now: Time, nextId: nat, value: JobSubmission)
    requires ValidSpec(value.spec)
    ensures var s := Submitted(now, nextId, value); Agrees(now, s, Replay(value.jobId, s.trace))
  {
    var s := Submitted(now, nextId, value);
    TwoEvents(NewJob(value.jobId), s.trace);
  }

  lemma LaterAgrees(now: Time, later: Time, s: JobState, j: JobVisibility)
    requires Agrees(now, s, j) && now <= later
    ensures Agrees(later, s, j)
  {
  }
}

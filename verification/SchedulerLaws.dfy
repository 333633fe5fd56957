/** What every run of the scheduler keeps: the schema's CHECKs, the fence, one outcome per attempt. */
module SchedulerLaws {
  import opened Model
  import opened Scheduler

  // The invariant of one job

  /** The CHECK constraints of scheduler_jobs, and the fields a claim fills. */
  predicate SchemaChecks(r: JobRow) {
    && r.availableAt >= r.spec.scheduledAt
    && r.claimToken.None? == r.claimedBy.None?
    && r.claimToken.None? == r.claimExpiresAt.None?
    && r.claimToken.None? == r.claimedAt.None?
    && (r.status.Held() <==> r.claimToken.Some?)
    && r.attemptNumber <= r.spec.maxAttempts
    && (r.status.Waiting() ==> r.attemptNumber < r.spec.maxAttempts)
    && (r.status.RowPending? <==> r.attemptNumber == 0)
  }

  predicate AttemptSane(now: Time, r: JobRow, a: AttemptRow) {
    && r.spec.scheduledAt <= a.claimedAt <= now
    && (a.startedAt.Some? ==> a.claimedAt <= a.startedAt.value <= now)
    && a.completedAt.Some? == a.outcome.Some?
    && (a.completedAt.Some? ==> a.completedAt.value <= now)
    && (a.outcome.None? ==> a.retryable.None? && a.errorCode.None? && a.nextRetryAt.None?)
  }

  predicate RetriedFailure(a: AttemptRow) {
    a.outcome == Some(OutcomeFailed) && a.retryable == Some(true)
  }

  /** How the row's status is explained by its newest attempt. */
  predicate StatusExplained(r: JobRow, a: AttemptRow) {
    match r.status
    case RowPending => false
    case RowClaimed =>
      a.outcome.None? && a.startedAt.None? && r.claimToken == Some(a.claimToken) && r.claimedBy == Some(a.claimedBy)
    case RowRunning =>
      a.outcome.None? && a.startedAt.Some? && r.claimToken == Some(a.claimToken) && r.claimedBy == Some(a.claimedBy)
    case RowRetryWait => a.outcome.None? || (RetriedFailure(a) && a.nextRetryAt == Some(r.availableAt))
    case RowSucceeded => a.outcome == Some(OutcomeSucceeded) && a.nextRetryAt.None?
    case RowFailed => a.outcome == Some(OutcomeFailed) && a.retryable == Some(false) && a.nextRetryAt.None?
    case RowExhausted =>
      r.attemptNumber == r.spec.maxAttempts && (a.outcome.None? || (RetriedFailure(a) && a.nextRetryAt.None?))
  }

  ghost predicate JobInv(now: Time, s: JobState) {
    && SchemaChecks(s.row)
    && (forall n :: n in s.attempts <==> 1 <= n <= s.row.attemptNumber)
    && (forall n | n in s.attempts :: AttemptSane(now, s.row, s.attempts[n]))
    && (forall n | n in s.attempts && n < s.row.attemptNumber ::
          s.attempts[n].outcome.None? || RetriedFailure(s.attempts[n]))
    && (s.row.attemptNumber in s.attempts ==> StatusExplained(s.row, s.attempts[s.row.attemptNumber]))
  }

  /** A passing claim is the newest attempt's own, and that attempt has no outcome yet. */
  lemma PassingClaim(now: Time, id: JobId, s: JobState, c: ClaimedJob)
    requires JobInv(now, s) && Passes(now, s.row, c)
    ensures s.row.status.Held() && c.attemptNumber in s.attempts && s.attempts[c.attemptNumber].outcome.None?
    ensures s.attempts[c.attemptNumber].claimToken == c.claimToken
  {
  }

  lemma ClaimKeeps(now: Time, lease: nat, nextId: nat, id: JobId, s: JobState, owner: string)
    requires JobInv(now, s)
    ensures JobInv(now, JobStep(now, lease, nextId, id, s, Claim(owner)))
  {
  }

  lemma StartKeeps(now: Time, lease: nat, nextId: nat, id: JobId, s: JobState, c: ClaimedJob)
    requires JobInv(now, s) && Permitted(now, id, s, JobAction.Start(c))
    ensures JobInv(now, JobStep(now, lease, nextId, id, s, JobAction.Start(c)))
  {
  }

  lemma HeartbeatKeeps(now: Time, lease: nat, nextId: nat, id: JobId, s: JobState, c: ClaimedJob)
    requires JobInv(now, s) && Permitted(now, id, s, JobAction.Heartbeat(c))
    ensures JobInv(now, JobStep(now, lease, nextId, id, s, JobAction.Heartbeat(c)))
  {
  }

  lemma SucceedKeeps(now: Time, lease: nat, nextId: nat, id: JobId, s: JobState, c: ClaimedJob)
    requires JobInv(now, s) && Permitted(now, id, s, JobAction.Succeed(c))
    ensures JobInv(now, JobStep(now, lease, nextId, id, s, JobAction.Succeed(c)))
  {
  }

  lemma FailKeeps(now: Time, lease: nat, nextId: nat, id: JobId, s: JobState, c: ClaimedJob, failure: HandlerFailure,
               asked: Time)
    requires JobInv(now, s) && Permitted(now, id, s, JobAction.Fail(c, failure, asked))
    ensures JobInv(now, JobStep(now, lease, nextId, id, s, JobAction.Fail(c, failure, asked)))
  {
  }

  lemma RecoverKeeps(now: Time, lease: nat, nextId: nat, id: JobId, s: JobState)
    requires JobInv(now, s)
    ensures JobInv(now, JobStep(now, lease, nextId, id, s, Recover))
  {
  }

  /** Every permitted transaction keeps the invariant, whichever worker runs it and however stale its claim. */
  lemma JobStepInv(now: Time, lease: nat, nextId: nat, id: JobId, s: JobState, a: JobAction)
    requires JobInv(now, s) && Permitted(now, id, s, a)
    ensures JobInv(now, JobStep(now, lease, nextId, id, s, a))
  {
    match a {
      case Claim(owner) => ClaimKeeps(now, lease, nextId, id, s, owner);
      case Start(c) => StartKeeps(now, lease, nextId, id, s, c);
      case Heartbeat(c) => HeartbeatKeeps(now, lease, nextId, id, s, c);
      case Succeed(c) => SucceedKeeps(now, lease, nextId, id, s, c);
      case Fail(c, failure, asked) => FailKeeps(now, lease, nextId, id, s, c, failure, asked);
      case Recover => RecoverKeeps(now, lease, nextId, id, s);
    }
  }

  lemma LaterInv(now: Time, later: Time, s: JobState)
    requires JobInv(now, s) && now <= later
    ensures JobInv(later, s)
  {
  }

  lemma SubmittedInv(now: Time, nextId: nat, value: JobSubmission)
    ensures JobInv(now, Submitted(now, nextId, value))
  {
  }

  // What one transaction writes

  /** The event is of this kind, instant and attempt, and carries no other outcome field than these. */
  predicate Says(e: Event, kind: EventType, at: Time, attempt: nat, resultCode: Option<string>,
                 errorCode: Option<string>) {
    && e.eventType == kind && e.eventTime == at && e.ingestionTime == at && e.attemptNumber == attempt
    && e.resultCode == resultCode && e.errorCode == errorCode
  }

  /** The columns no transaction but a claim or a release changes. */
  predicate KeepsClaim(r: JobRow, t: JobRow) {
    && t.claimedBy == r.claimedBy && t.claimToken == r.claimToken && t.claimedAt == r.claimedAt
    && t.attemptNumber == r.attemptNumber && t.availableAt == r.availableAt
    && t.spec == r.spec && t.createdAt == r.createdAt
  }

  predicate Unclaimed(r: JobRow) {
    r.claimedBy.None? && r.claimToken.None? && r.claimedAt.None? && r.claimExpiresAt.None?
  }

  /** A new job is pending and due at its schedule; its two events are those of creation and submission. */
  lemma SubmittedColumns(now: Time, nextId: nat, value: JobSubmission)
    ensures var s := Submitted(now, nextId, value);
            && s.row.spec == value.spec && s.row.availableAt == value.spec.scheduledAt
            && s.row.status.RowPending? && s.row.attemptNumber == 0 && Unclaimed(s.row)
            && s.row.createdAt == s.row.updatedAt == now && s.row.version == 0 && s.attempts == map[]
            && |s.trace| == 2
            && Says(s.trace[0], JobCreated, now, 0, None, None)
            && Says(s.trace[1], SubmissionRequested, now, 0, None, None)
  {
  }

  /** A claim opens the next attempt under a new token, until the end of the lease. */
  lemma ClaimColumns(now: Time, lease: nat, nextId: nat, id: JobId, s: JobState, owner: string)
    requires Due(now, s.row)
    ensures var t := JobStep(now, lease, nextId, id, s, Claim(owner));
            var n := s.row.attemptNumber + 1;
            && t.row.status.RowClaimed? && t.row.attemptNumber == n
            && t.row.claimedBy == Some(owner) && t.row.claimToken == Some(nextId)
            && t.row.claimedAt == Some(now) && t.row.claimExpiresAt == Some(now + lease)
            && t.row.availableAt == s.row.availableAt && t.row.spec == s.row.spec
            && t.row.updatedAt == now && t.row.version == s.row.version + 1
            && t.attempts == s.attempts[n := AttemptRow(nextId, owner, now, None, None, None, None, None, None)]
            && |t.trace| == |s.trace| + 1 && Says(t.trace[|s.trace|], ItemRetrieved, now, n, None, None)
  {
  }

  lemma StartColumns(now: Time, lease: nat, nextId: nat, id: JobId, s: JobState, c: ClaimedJob)
    requires Passes(now, s.row, c) && c.attemptNumber in s.attempts
    ensures var t := JobStep(now, lease, nextId, id, s, JobAction.Start(c));
            && t.row.status.RowRunning? && KeepsClaim(s.row, t.row) && t.row.claimExpiresAt == s.row.claimExpiresAt
            && t.row.updatedAt == now && t.row.version == s.row.version + 1
            && t.attempts == s.attempts[c.attemptNumber := s.attempts[c.attemptNumber].(startedAt := Some(now))]
            && |t.trace| == |s.trace| + 1
            && Says(t.trace[|s.trace|], ExecutionStarted, now, c.attemptNumber, None, None)
  {
  }

  /** A heartbeat extends the claim by a whole lease from now, and writes nothing else but the instant. */
  lemma HeartbeatColumns(now: Time, lease: nat, nextId: nat, id: JobId, s: JobState, c: ClaimedJob)
    requires Passes(now, s.row, c)
    ensures var t := JobStep(now, lease, nextId, id, s, JobAction.Heartbeat(c));
            && t.row.claimExpiresAt == Some(now + lease) && KeepsClaim(s.row, t.row)
            && t.row.status == s.row.status && t.row.updatedAt == now && t.row.version == s.row.version
            && t.attempts == s.attempts && t.trace == s.trace
  {
  }

  lemma SucceedColumns(now: Time, lease: nat, nextId: nat, id: JobId, s: JobState, c: ClaimedJob)
    requires Passes(now, s.row, c) && c.attemptNumber in s.attempts
    ensures var t, n := JobStep(now, lease, nextId, id, s, JobAction.Succeed(c)), c.attemptNumber;
            && t.row.status.RowSucceeded? && Unclaimed(t.row) && t.row.attemptNumber == s.row.attemptNumber
            && t.row.availableAt == s.row.availableAt && t.row.updatedAt == now && t.row.version == s.row.version + 1
            && t.attempts ==
                s.attempts[n := s.attempts[n].(completedAt := Some(now), outcome := Some(OutcomeSucceeded))]
            && |t.trace| == |s.trace| + 1
            && Says(t.trace[|s.trace|], ExecutionSucceeded, now, n, Some("SUCCESS"), None)
  {
  }

  /** A failure that may be retried waits from the instant `fail` asked; any other failure is final. */
  lemma FailColumns(now: Time, lease: nat, nextId: nat, id: JobId, s: JobState, c: ClaimedJob,
                    failure: HandlerFailure, asked: Time)
    requires Passes(now, s.row, c) && c.attemptNumber in s.attempts
    ensures var t, n := JobStep(now, lease, nextId, id, s, JobAction.Fail(c, failure, asked)), c.attemptNumber;
            var retried := failure.retryable && n < c.spec.maxAttempts;
            && n in t.attempts
            && t.row.status == (if retried then RowRetryWait else if failure.retryable then RowExhausted else RowFailed)
            && Unclaimed(t.row) && t.row.attemptNumber == s.row.attemptNumber
            && t.row.updatedAt == now && t.row.version == s.row.version + 1
            && t.attempts[n].completedAt == Some(now) && t.attempts[n].outcome == Some(OutcomeFailed)
            && t.attempts[n].retryable == Some(failure.retryable) && t.attempts[n].errorCode == Some(failure.code)
            && (retried ==> t.attempts[n].nextRetryAt == Some(t.row.availableAt))
            && (!retried ==> t.attempts[n].nextRetryAt.None? && t.row.availableAt == asked)
            && |t.trace| == |s.trace| + (if retried then 3 else if failure.retryable then 2 else 1)
            && Says(t.trace[|s.trace|], ExecutionFailed, now, n, None, Some(failure.code))
            && t.trace[|s.trace|].retryable == Some(failure.retryable)
  {
  }

  // What one transaction never undoes

  predicate SameClaim(a: AttemptRow, b: AttemptRow) {
    a.claimToken == b.claimToken && a.claimedBy == b.claimedBy && a.claimedAt == b.claimedAt
  }

  /** Rows only move forward: closed and superseded attempts are frozen, and a finished job is final. */
  ghost predicate Grows(s: JobState, t: JobState) {
    && t.row.spec == s.row.spec && t.row.createdAt == s.row.createdAt
    && s.row.attemptNumber <= t.row.attemptNumber
    && (forall n | n in s.attempts ::
          && n in t.attempts && SameClaim(s.attempts[n], t.attempts[n])
          && (s.attempts[n].outcome.Some? || n < s.row.attemptNumber ==> t.attempts[n] == s.attempts[n]))
    && s.trace <= t.trace
    && (s.row.status.Finished() ==> t == s)
  }

  lemma ClaimGrows(now: Time, lease: nat, nextId: nat, id: JobId, s: JobState, owner: string)
    requires JobInv(now, s)
    ensures Grows(s, JobStep(now, lease, nextId, id, s, Claim(owner)))
  {
  }

  lemma StartGrows(now: Time, lease: nat, nextId: nat, id: JobId, s: JobState, c: ClaimedJob)
    requires JobInv(now, s) && Permitted(now, id, s, JobAction.Start(c))
    ensures Grows(s, JobStep(now, lease, nextId, id, s, JobAction.Start(c)))
  {
  }

  lemma SucceedGrows(now: Time, lease: nat, nextId: nat, id: JobId, s: JobState, c: ClaimedJob)
    requires JobInv(now, s) && Permitted(now, id, s, JobAction.Succeed(c))
    ensures Grows(s, JobStep(now, lease, nextId, id, s, JobAction.Succeed(c)))
  {
  }

  lemma FailGrows(now: Time, lease: nat, nextId: nat, id: JobId, s: JobState, c: ClaimedJob, failure: HandlerFailure,
                asked: Time)
    requires JobInv(now, s) && Permitted(now, id, s, JobAction.Fail(c, failure, asked))
    ensures Grows(s, JobStep(now, lease, nextId, id, s, JobAction.Fail(c, failure, asked)))
  {
  }

  lemma JobStepGrows(now: Time, lease: nat, nextId: nat, id: JobId, s: JobState, a: JobAction)
    requires JobInv(now, s) && Permitted(now, id, s, a)
    ensures Grows(s, JobStep(now, lease, nextId, id, s, a))
  {
    match a {
      case Claim(owner) => ClaimGrows(now, lease, nextId, id, s, owner);
      case Start(c) => StartGrows(now, lease, nextId, id, s, c);
      case Heartbeat(_) =>
      case Succeed(c) => SucceedGrows(now, lease, nextId, id, s, c);
      case Fail(c, failure, asked) => FailGrows(now, lease, nextId, id, s, c, failure, asked);
      case Recover =>
    }
  }

  lemma GrowsTransitive(s: JobState, t: JobState, u: JobState)
    requires Grows(s, t) && Grows(t, u)
    ensures Grows(s, u)
  {
  }

  // The fence

  /** Two genuine claims on one job never both pass: at most one worker can act at any instant. */
  lemma OneClaimPasses(now: Time, id: JobId, s: JobState, c: ClaimedJob, d: ClaimedJob)
    requires Genuine(id, s, c) && Genuine(id, s, d)
    requires Passes(now, s.row, c) && Passes(now, s.row, d)
    ensures c == d
  {
  }

  /** A claim some worker was given, which the fence rejects: it has expired, or was recovered, completed
      or superseded. */
  predicate DeadClaim(now: Time, id: JobId, s: JobState, c: ClaimedJob) {
    Genuine(id, s, c) && !Passes(now, s.row, c)
  }

  /** A dead claim is still dead after any transaction of any worker, heartbeats included. */
  lemma DeadClaimStep(now: Time, lease: nat, nextId: nat, id: JobId, s: JobState, a: JobAction, c: ClaimedJob)
    requires JobInv(now, s) && Permitted(now, id, s, a) && DeadClaim(now, id, s, c)
    ensures DeadClaim(now, id, JobStep(now, lease, nextId, id, s, a), c)
  {
    JobStepGrows(now, lease, nextId, id, s, a);
    match a {
      case Claim(_) =>
      case Start(d) =>
      case Heartbeat(d) =>
      case Succeed(d) =>
      case Fail(d, failure, asked) =>
      case Recover =>
    }
  }

  lemma LaterDead(now: Time, later: Time, id: JobId, s: JobState, c: ClaimedJob)
    requires DeadClaim(now, id, s, c) && now <= later
    ensures DeadClaim(later, id, s, c)
  {
  }

  // Progress

  /** Twice the attempts made, less one while a claim is held. */
  function Progress(r: JobRow): int {
    2 * r.attemptNumber - (if r.status.Held() then 1 else 0)
  }

  /** The action takes or releases the claim. */
  predicate TakesOrReleases(a: JobAction) {
    a.Claim? || a.Succeed? || a.Fail? || a.Recover?
  }

  /** Each transaction that takes or releases a claim advances the job by exactly one; no other one does. */
  lemma ProgressStep(now: Time, lease: nat, nextId: nat, id: JobId, s: JobState, a: JobAction)
    requires JobInv(now, s) && Permitted(now, id, s, a)
    ensures Progress(JobStep(now, lease, nextId, id, s, a).row) ==
            Progress(s.row)
            + (if TakesOrReleases(a) && Transaction(now, lease, nextId, id, s, a).Some? then 1 else 0)
    ensures 0 <= Progress(s.row) <= 2 * s.row.spec.maxAttempts
  {
    match a {
      case Claim(_) =>
      case Start(c) =>
      case Heartbeat(c) =>
      case Succeed(c) =>
      case Fail(c, failure, asked) =>
      case Recover =>
    }
  }
}

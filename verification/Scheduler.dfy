/** The durable scheduler of scheduler/service.py as a state machine over its tables.

Each transaction is one atomic step; a crash is a run that stops between two steps.  Every value the
source draws from uuid4 or gen_random_uuid comes from a counter that never repeats.  A batch claim or a
batch recovery is a run of single-row steps at one instant.
*/
module Scheduler {
  import opened Model

  type Token = nat

  /** The columns of a job that no transaction changes. */
  datatype JobSpec = JobSpec(
    correlationId: string,
    jobType: string,
    payload: Option<string>,
    payloadReference: Option<string>,
    scheduledAt: Time,
    maxAttempts: Positive)

  datatype JobSubmission = JobSubmission(jobId: JobId, spec: JobSpec)

  /** What constructing a JobSubmission guarantees. */
  predicate ValidSpec(spec: JobSpec) {
    spec.correlationId != "" && spec.jobType != "" && spec.payload.None? != spec.payloadReference.None?
  }

  datatype RowStatus =
    | RowPending
    | RowClaimed
    | RowRunning
    | RowRetryWait
    | RowSucceeded
    | RowFailed
    | RowExhausted
  {
    predicate Waiting() { RowPending? || RowRetryWait? }
    predicate Held() { RowClaimed? || RowRunning? }
    predicate Finished() { RowSucceeded? || RowFailed? || RowExhausted? }
  }

  datatype JobRow = JobRow(
    spec: JobSpec,
    availableAt: Time,
    status: RowStatus,
    attemptNumber: nat,
    claimedBy: Option<string>,
    claimToken: Option<Token>,
    claimedAt: Option<Time>,
    claimExpiresAt: Option<Time>,
    createdAt: Time,
    updatedAt: Time,
    version: nat)

  datatype Outcome = OutcomeSucceeded | OutcomeFailed

  datatype AttemptRow = AttemptRow(
    claimToken: Token,
    claimedBy: string,
    claimedAt: Time,
    startedAt: Option<Time>,
    completedAt: Option<Time>,
    outcome: Option<Outcome>,
    retryable: Option<bool>,
    errorCode: Option<string>,
    nextRetryAt: Option<Time>)

  /** What a worker holds after `claim_due`. */
  datatype ClaimedJob = ClaimedJob(
    jobId: JobId,
    spec: JobSpec,
    attemptNumber: nat,
    claimedBy: string,
    claimToken: Token)

  datatype HandlerFailure = HandlerFailure(code: string, retryable: bool)

  // One job

  /** The part of the database that concerns one job: its row, its attempts, its outbox events in order. */
  datatype JobState = JobState(row: JobRow, attempts: map<nat, AttemptRow>, trace: seq<Event>)

  datatype JobAction =
    | Claim(owner: string)
    | Start(claim: ClaimedJob)
    | Heartbeat(claim: ClaimedJob)
    | Succeed(claim: ClaimedJob)
    | Fail(claim: ClaimedJob, failure: HandlerFailure, asked: Time)  // asked: the instant `fail` reads first
    | Recover

  /** The writes of one transaction: the row, the attempt row numbered like it, the new outbox events. */
  datatype Change = Change(row: JobRow, attempt: Option<AttemptRow>, events: seq<Event>)

  function Emit(id: EventId, kind: EventType, job: JobId, spec: JobSpec, at: Time, attempt: nat,
                retryable: Option<bool>, nextRetryAt: Option<Time>, resultCode: Option<string>,
                errorCode: Option<string>): Event
  {
    Event(id, kind, at, at, job, spec.correlationId, spec.jobType, None, Some(spec.scheduledAt), attempt,
          retryable, spec.maxAttempts, nextRetryAt, resultCode, errorCode, None)
  }

  /** The WHERE clause of `_fenced_update`. */
  predicate Passes(now: Time, row: JobRow, c: ClaimedJob) {
    && row.attemptNumber == c.attemptNumber
    && row.claimedBy == Some(c.claimedBy)
    && row.claimToken == Some(c.claimToken)
    && row.claimExpiresAt.Some? && row.claimExpiresAt.value >= now
  }

  function Power2(n: nat): nat {
    if n == 0 then 1 else 2 * Power2(n - 1)
  }

  function RetryDelay(attempt: nat): nat {
    if Power2(attempt) < 300 then Power2(attempt) else 300
  }

  function Released(row: JobRow, status: RowStatus, availableAt: Time, now: Time): JobRow {
    JobRow(row.spec, availableAt, status, row.attemptNumber, None, None, None, None, row.createdAt, now,
           row.version + 1)
  }

  function ClaimChange(now: Time, lease: nat, nextId: nat, id: JobId, row: JobRow, owner: string): Change {
    var n := row.attemptNumber + 1;
    Change(JobRow(row.spec, row.availableAt, RowClaimed, n, Some(owner), Some(nextId), Some(now),
                  Some(now + lease), row.createdAt, now, row.version + 1),
           Some(AttemptRow(nextId, owner, now, None, None, None, None, None, None)),
           [Emit(nextId, ItemRetrieved, id, row.spec, now, n, None, None, None, None)])
  }

  function ClaimFrom(nextId: nat, id: JobId, row: JobRow, owner: string): ClaimedJob {
    ClaimedJob(id, row.spec, row.attemptNumber + 1, owner, nextId)
  }

  function StartChange(now: Time, nextId: nat, id: JobId, s: JobState, c: ClaimedJob): Change {
    Change(s.row.(status := RowRunning, updatedAt := now, version := s.row.version + 1),
           if c.attemptNumber in s.attempts
           then Some(s.attempts[c.attemptNumber].(startedAt := Some(now))) else None,
           [Emit(nextId, ExecutionStarted, id, c.spec, now, c.attemptNumber, None, None, None, None)])
  }

  function SucceedChange(now: Time, nextId: nat, id: JobId, s: JobState, c: ClaimedJob): Change {
    Change(Released(s.row, RowSucceeded, s.row.availableAt, now),
           if c.attemptNumber in s.attempts
           then Some(s.attempts[c.attemptNumber].(completedAt := Some(now), outcome := Some(OutcomeSucceeded)))
           else None,
           [Emit(nextId, ExecutionSucceeded, id, c.spec, now, c.attemptNumber, None, None, Some("SUCCESS"), None)])
  }

  predicate WillRetry(c: ClaimedJob, failure: HandlerFailure) {
    failure.retryable && c.attemptNumber < c.spec.maxAttempts
  }

  function RetryTime(c: ClaimedJob, failure: HandlerFailure, asked: Time): Option<Time> {
    if WillRetry(c, failure) then Some(asked + RetryDelay(c.attemptNumber)) else None
  }

  function FailEvents(now: Time, nextId: nat, id: JobId, c: ClaimedJob, failure: HandlerFailure, asked: Time)
    : seq<Event>
  {
    var failed := Emit(nextId, ExecutionFailed, id, c.spec, now, c.attemptNumber, Some(failure.retryable), None,
                       None, Some(failure.code));
    if WillRetry(c, failure) then
      [failed,
       Emit(nextId + 1, RetryRequested, id, c.spec, now, c.attemptNumber, Some(true), None, None, None),
       Emit(nextId + 2, RetryAcknowledged, id, c.spec, now, c.attemptNumber, Some(true),
            RetryTime(c, failure, asked), None, None)]
    else if failure.retryable then
      [failed,
       Emit(nextId + 1, RetriesExhausted, id, c.spec, now, c.attemptNumber, Some(false), None, None, None)]
    else [failed]
  }

  function FailChange(now: Time, nextId: nat, id: JobId, s: JobState, c: ClaimedJob, failure: HandlerFailure,
                      asked: Time): Change
  {
    var retryAt := RetryTime(c, failure, asked);
    Change(Released(s.row,
                    if retryAt.Some? then RowRetryWait else if failure.retryable then RowExhausted else RowFailed,
                    if retryAt.Some? then retryAt.value else asked,
                    now),
           if c.attemptNumber in s.attempts
           then Some(s.attempts[c.attemptNumber].(completedAt := Some(now), outcome := Some(OutcomeFailed),
                                                  retryable := Some(failure.retryable),
                                                  errorCode := Some(failure.code), nextRetryAt := retryAt))
           else None,
           FailEvents(now, nextId, id, c, failure, asked))
  }

  function RecoverChange(now: Time, row: JobRow): Change {
    Change(Released(row, if row.attemptNumber < row.spec.maxAttempts then RowRetryWait else RowExhausted, now, now),
           None, [])
  }

  predicate Due(now: Time, row: JobRow) {
    row.status.Waiting() && row.availableAt <= now
  }

  predicate Expired(now: Time, row: JobRow) {
    row.status.Held() && row.claimExpiresAt.Some? && row.claimExpiresAt.value < now
  }

  /** The transaction an action performs, or None where it matches no row or raises StaleClaimError. */
  function Transaction(now: Time, lease: nat, nextId: nat, id: JobId, s: JobState, a: JobAction): Option<Change> {
    match a
    case Claim(owner) => if Due(now, s.row) then Some(ClaimChange(now, lease, nextId, id, s.row, owner)) else None
    case Start(c) => if Passes(now, s.row, c) then Some(StartChange(now, nextId, id, s, c)) else None
    case Heartbeat(c) =>
      if Passes(now, s.row, c)
      then Some(Change(s.row.(claimExpiresAt := Some(now + lease), updatedAt := now), None, []))
      else None
    case Succeed(c) => if Passes(now, s.row, c) then Some(SucceedChange(now, nextId, id, s, c)) else None
    case Fail(c, failure, asked) =>
      if Passes(now, s.row, c) then Some(FailChange(now, nextId, id, s, c, failure, asked)) else None
    case Recover => if Expired(now, s.row) then Some(RecoverChange(now, s.row)) else None
  }

  function Commit(s: JobState, change: Option<Change>): JobState {
    if change.None? then s
    else
      var c := change.value;
      JobState(c.row,
               if c.attempt.Some? then s.attempts[c.row.attemptNumber := c.attempt.value] else s.attempts,
               s.trace + c.events)
  }

  function JobStep(now: Time, lease: nat, nextId: nat, id: JobId, s: JobState, a: JobAction): JobState {
    Commit(s, Transaction(now, lease, nextId, id, s, a))
  }

  function Submitted(now: Time, nextId: nat, value: JobSubmission): JobState {
    JobState(JobRow(value.spec, value.spec.scheduledAt, RowPending, 0, None, None, None, None, now, now, 0),
             map[],
             [Emit(nextId, JobCreated, value.jobId, value.spec, now, 0, None, None, None, None),
              Emit(nextId + 1, SubmissionRequested, value.jobId, value.spec, now, 0, None, None, None, None)])
  }

  /** The claim is one `claim_due` returned: its attempt row exists and carries its token. */
  predicate Genuine(id: JobId, s: JobState, c: ClaimedJob) {
    && c.jobId == id
    && c.spec == s.row.spec
    && c.attemptNumber in s.attempts
    && s.attempts[c.attemptNumber].claimToken == c.claimToken
    && s.attempts[c.attemptNumber].claimedBy == c.claimedBy
  }

  /** Workers act only on claims they were given; `fail` reads the clock after the claim was made. */
  predicate Permitted(now: Time, id: JobId, s: JobState, a: JobAction) {
    match a
    case Start(c) => Genuine(id, s, c)
    case Heartbeat(c) => Genuine(id, s, c)
    case Succeed(c) => Genuine(id, s, c)
    case Fail(c, _, asked) => Genuine(id, s, c) && s.attempts[c.attemptNumber].claimedAt <= asked <= now
    case _ => true
  }

  // The whole database

  datatype Database = Database(
    now: Time,
    lease: nat,
    nextId: nat,
    jobs: map<JobId, JobRow>,
    attempts: map<JobId, map<nat, AttemptRow>>,
    outbox: seq<Event>)

  datatype Action =
    | Tick(seconds: nat)
    | Submit(value: JobSubmission)
    | Act(jobId: JobId, action: JobAction)

  /** Identifiers a transaction may draw. */
  const IDS_PER_STEP: nat := 3

  function Slice(db: Database, id: JobId): JobState
    requires id in db.jobs
  {
    JobState(db.jobs[id], if id in db.attempts then db.attempts[id] else map[], Trace(db.outbox, id))
  }

  /** The three tables after one transaction on one job. */
  function Write(db: Database, id: JobId, change: Option<Change>): Database
    requires id in db.jobs
  {
    if change.None? then db
    else
      var c := change.value;
      db.(jobs := db.jobs[id := c.row],
          attempts := if c.attempt.Some?
                      then db.attempts[id := Slice(db, id).attempts[c.row.attemptNumber := c.attempt.value]]
                      else db.attempts,
          outbox := db.outbox + c.events,
          nextId := db.nextId + IDS_PER_STEP)
  }

  function Step(db: Database, a: Action): Database {
    match a
    case Tick(seconds) => db.(now := db.now + seconds)
    case Submit(value) =>
      if value.jobId in db.jobs then db
      else
        var s := Submitted(db.now, db.nextId, value);
        db.(jobs := db.jobs[value.jobId := s.row],
            attempts := db.attempts[value.jobId := s.attempts],
            outbox := db.outbox + s.trace,
            nextId := db.nextId + IDS_PER_STEP)
    case Act(id, action) =>
      if id !in db.jobs then db
      else Write(db, id, Transaction(db.now, db.lease, db.nextId, id, Slice(db, id), action))
  }

  predicate Allowed(db: Database, a: Action) {
    match a
    case Tick(_) => true
    case Submit(value) => ValidSpec(value.spec)
    case Act(id, action) => id in db.jobs ==> Permitted(db.now, id, Slice(db, id), action)
  }

  function Run(db: Database, actions: seq<Action>): Database {
    Fold(Step, db, actions)
  }

  predicate ValidRun(db: Database, actions: seq<Action>) {
    actions == [] ||
    (ValidRun(db, actions[..|actions| - 1]) && Allowed(Run(db, actions[..|actions| - 1]), actions[|actions| - 1]))
  }

  function Empty(now: Time, lease: nat): Database {
    Database(now, lease, 0, map[], map[], [])
  }
}

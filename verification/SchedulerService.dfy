/** The scheduler's transactions on mutable tables, each proved to be the step of the state machine. */
module SchedulerService {
  import opened Model
  import opened Ordering
  import opened Scheduler
  import opened Runs

  datatype SubmissionDecision = SubmissionCreated | SubmissionIdentical | SubmissionConflict

  /** How a handler leaves `handlers.execute`. */
  datatype HandlerOutcome = Returned | RaisedHandlerError(failure: HandlerFailure) | RaisedOther

  datatype ExecuteResult = Completed | Retreated | Stale

  /** Jobs whose rows the claiming query may take: due, and not locked by a concurrent transaction. */
  function DueJobs(db: Database, locked: set<JobId>): map<JobId, Time> {
    map id | id in db.jobs && id !in locked && Due(db.now, db.jobs[id]) :: db.jobs[id].availableAt
  }

  /** Jobs whose claim the recovering query may take back. */
  function ExpiredJobs(db: Database, locked: set<JobId>): map<JobId, Time> {
    map id | id in db.jobs && id !in locked && Expired(db.now, db.jobs[id]) ::
      if db.jobs[id].claimExpiresAt.Some? then db.jobs[id].claimExpiresAt.value else 0
  }

  /** The rows the two queries choose from, and the instants they order them by. */
  lemma QueriedRows(db: Database, locked: set<JobId>, id: JobId)
    ensures id in DueJobs(db, locked) <==>
              && id in db.jobs && id !in locked && db.jobs[id].availableAt <= db.now
              && (db.jobs[id].status.RowPending? || db.jobs[id].status.RowRetryWait?)
    ensures id in DueJobs(db, locked) ==> DueJobs(db, locked)[id] == db.jobs[id].availableAt
    ensures id in ExpiredJobs(db, locked) <==>
              && id in db.jobs && id !in locked
              && (db.jobs[id].status.RowClaimed? || db.jobs[id].status.RowRunning?)
              && db.jobs[id].claimExpiresAt.Some? && db.jobs[id].claimExpiresAt.value < db.now
    ensures id in ExpiredJobs(db, locked) ==> Some(ExpiredJobs(db, locked)[id]) == db.jobs[id].claimExpiresAt
  {
  }

  /** One single-row step per chosen job. */
  function Each(ids: seq<JobId>, a: JobAction): seq<Action> {
    seq(|ids|, i requires 0 <= i < |ids| => Act(ids[i], a))
  }

  function JobsOf(claims: seq<ClaimedJob>): seq<JobId> {
    seq(|claims|, i requires 0 <= i < |claims| => claims[i].jobId)
  }

  lemma EachExtends(ids: seq<JobId>, i: nat, a: JobAction)
    requires i < |ids|
    ensures Each(ids[..i + 1], a) == Each(ids[..i], a) + [Act(ids[i], a)]
  {
  }

  function RowsOf(attempts: map<JobId, map<nat, AttemptRow>>, id: JobId): map<nat, AttemptRow> {
    if id in attempts then attempts[id] else map[]
  }

  /** The claim was issued from these tables at this instant, for the whole lease, and passes the fence. */
  predicate HeldClaim(now: Time, lease: nat, jobs: map<JobId, JobRow>, attempts: map<JobId, map<nat, AttemptRow>>,
                      c: ClaimedJob) {
    && c.jobId in jobs
    && Genuine(c.jobId, JobState(jobs[c.jobId], RowsOf(attempts, c.jobId), []), c)
    && Passes(now, jobs[c.jobId], c)
    && jobs[c.jobId].claimExpiresAt == Some(now + lease)
  }

  /** The rows of every other job are as they were. */
  predicate SameElsewhere(jobs: map<JobId, JobRow>, attempts: map<JobId, map<nat, AttemptRow>>,
                          nextJobs: map<JobId, JobRow>, nextAttempts: map<JobId, map<nat, AttemptRow>>, id: JobId)
  {
    && (forall other | other in jobs && other != id :: other in nextJobs && nextJobs[other] == jobs[other])
    && (forall other | other in nextJobs && other != id :: other in jobs)
    && (forall other | other in nextJobs && other != id :: RowsOf(nextAttempts, other) == RowsOf(attempts, other))
  }

  lemma HeldElsewhere(now: Time, lease: nat, jobs: map<JobId, JobRow>, attempts: map<JobId, map<nat, AttemptRow>>,
                      nextJobs: map<JobId, JobRow>, nextAttempts: map<JobId, map<nat, AttemptRow>>, id: JobId,
                      claims: seq<ClaimedJob>)
    requires SameElsewhere(jobs, attempts, nextJobs, nextAttempts, id)
    requires forall k | 0 <= k < |claims| :: claims[k].jobId != id && HeldClaim(now, lease, jobs, attempts, claims[k])
    ensures forall k | 0 <= k < |claims| :: HeldClaim(now, lease, nextJobs, nextAttempts, claims[k])
  {
  }

  lemma HeldForTheLease(now: Time, lease: nat, jobs: map<JobId, JobRow>, attempts: map<JobId, map<nat, AttemptRow>>,
                        c: ClaimedJob)
    requires HeldClaim(now, lease, jobs, attempts, c)
    ensures forall t :: Passes(t, jobs[c.jobId], c) <==> t <= now + lease
  {
  }

  class SchedulerService {
    const lease: nat
    var now: Time
    var nextId: nat
    var jobs: map<JobId, JobRow>
    var attempts: map<JobId, map<nat, AttemptRow>>
    var outbox: seq<Event>

    function Db(): Database
      reads this
    {
      Database(now, lease, nextId, jobs, attempts, outbox)
    }

    constructor (now: Time, lease: nat)
      ensures Db() == Empty(now, lease) && Good(Db())
    {
      this.lease := lease;
      this.now := now;
      this.nextId := 0;
      this.jobs := map[];
      this.attempts := map[];
      this.outbox := [];
      new;
      EmptyGood(now, lease);
    }

    /** Time passing on the database clock. */
    method Elapse(seconds: nat)
      modifies this
      ensures Db() == Step(old(Db()), Tick(seconds))
    {
      now := now + seconds;
    }

    method SubmitChecked(value: JobSubmission) returns (decision: SubmissionDecision)
      modifies this
      ensures Db() == Step(old(Db()), Submit(value))
      ensures decision == if value.jobId !in old(jobs) then SubmissionCreated
                          else if old(jobs)[value.jobId].spec == value.spec then SubmissionIdentical
                          else SubmissionConflict
    {
      if value.jobId in jobs {
        if jobs[value.jobId].spec == value.spec {
          decision := SubmissionIdentical;
        } else {
          decision := SubmissionConflict;
        }
      } else {
        jobs := jobs[value.jobId := JobRow(value.spec, value.spec.scheduledAt, RowPending, 0, None, None, None, None,
                                           now, now, 0)];
        attempts := attempts[value.jobId := map[]];
        outbox := outbox + [Emit(nextId, JobCreated, value.jobId, value.spec, now, 0, None, None, None, None),
                            Emit(nextId + 1, SubmissionRequested, value.jobId, value.spec, now, 0, None, None, None,
                                 None)];
        nextId := nextId + IDS_PER_STEP;
        decision := SubmissionCreated;
      }
    }

    method Start(c: ClaimedJob) returns (ok: bool)
      modifies this
      ensures Db() == Step(old(Db()), Act(c.jobId, JobAction.Start(c)))
      ensures ok <==> c.jobId in old(jobs) && Passes(old(now), old(jobs)[c.jobId], c)
    {
      ok := c.jobId in jobs && Passes(now, jobs[c.jobId], c);
      if ok {
        var row := jobs[c.jobId];
        var rows := RowsOf(attempts, c.jobId);
        jobs := jobs[c.jobId := row.(status := RowRunning, updatedAt := now, version := row.version + 1)];
        if c.attemptNumber in rows {
          attempts := attempts[c.jobId := rows[c.attemptNumber := rows[c.attemptNumber].(startedAt := Some(now))]];
        }
        outbox := outbox + [Emit(nextId, ExecutionStarted, c.jobId, c.spec, now, c.attemptNumber, None, None, None,
                                 None)];
        nextId := nextId + IDS_PER_STEP;
      }
    }

    method Heartbeat(c: ClaimedJob) returns (expires: Option<Time>)
      modifies this
      ensures Db() == Step(old(Db()), Act(c.jobId, JobAction.Heartbeat(c)))
      ensures expires == if c.jobId in old(jobs) && Passes(old(now), old(jobs)[c.jobId], c)
                         then Some(old(now) + lease) else None
      ensures expires.Some? ==> c.jobId in jobs && jobs[c.jobId].claimExpiresAt == expires
    {
      if c.jobId in jobs && Passes(now, jobs[c.jobId], c) {
        jobs := jobs[c.jobId := jobs[c.jobId].(claimExpiresAt := Some(now + lease), updatedAt := now)];
        nextId := nextId + IDS_PER_STEP;
        expires := Some(now + lease);
      } else {
        expires := None;
      }
    }

    method Succeed(c: ClaimedJob) returns (ok: bool)
      modifies this
      ensures Db() == Step(old(Db()), Act(c.jobId, JobAction.Succeed(c)))
      ensures ok <==> c.jobId in old(jobs) && Passes(old(now), old(jobs)[c.jobId], c)
    {
      ok := c.jobId in jobs && Passes(now, jobs[c.jobId], c);
      if ok {
        var row := jobs[c.jobId];
        var rows := RowsOf(attempts, c.jobId);
        jobs := jobs[c.jobId := JobRow(row.spec, row.availableAt, RowSucceeded, row.attemptNumber, None, None, None,
                                       None, row.createdAt, now, row.version + 1)];
        if c.attemptNumber in rows {
          attempts := attempts[c.jobId := rows[c.attemptNumber :=
            rows[c.attemptNumber].(completedAt := Some(now), outcome := Some(OutcomeSucceeded))]];
        }
        outbox := outbox + [Emit(nextId, ExecutionSucceeded, c.jobId, c.spec, now, c.attemptNumber, None, None,
                                 Some("SUCCESS"), None)];
        nextId := nextId + IDS_PER_STEP;
      }
    }

    /** `asked` is the instant the source's `fail` reads before its fenced update. */
    method Fail(c: ClaimedJob, failure: HandlerFailure, asked: Time) returns (ok: bool)
      modifies this
      ensures Db() == Step(old(Db()), Act(c.jobId, JobAction.Fail(c, failure, asked)))
      ensures ok <==> c.jobId in old(jobs) && Passes(old(now), old(jobs)[c.jobId], c)
    {
      var retry := failure.retryable && c.attemptNumber < c.spec.maxAttempts;
      var status := if retry then RowRetryWait else if failure.retryable then RowExhausted else RowFailed;
      var available := if retry then asked + RetryDelay(c.attemptNumber) else asked;
      ok := c.jobId in jobs && Passes(now, jobs[c.jobId], c);
      if ok {
        var row := jobs[c.jobId];
        var rows := RowsOf(attempts, c.jobId);
        jobs := jobs[c.jobId := JobRow(row.spec, available, status, row.attemptNumber, None, None, None, None,
                                       row.createdAt, now, row.version + 1)];
        if c.attemptNumber in rows {
          attempts := attempts[c.jobId := rows[c.attemptNumber :=
            rows[c.attemptNumber].(completedAt := Some(now), outcome := Some(OutcomeFailed),
                                   retryable := Some(failure.retryable), errorCode := Some(failure.code),
                                   nextRetryAt := if retry then Some(available) else None)]];
        }
        ghost var before := outbox;
        outbox := outbox + [Emit(nextId, ExecutionFailed, c.jobId, c.spec, now, c.attemptNumber,
                                 Some(failure.retryable), None, None, Some(failure.code))];
        if retry {
          outbox := outbox + [Emit(nextId + 1, RetryRequested, c.jobId, c.spec, now, c.attemptNumber, Some(true),
                                   None, None, None)];
          outbox := outbox + [Emit(nextId + 2, RetryAcknowledged, c.jobId, c.spec, now, c.attemptNumber, Some(true),
                                   Some(available), None, None)];
        } else if failure.retryable {
          outbox := outbox + [Emit(nextId + 1, RetriesExhausted, c.jobId, c.spec, now, c.attemptNumber, Some(false),
                                   None, None, None)];
        }
        assert outbox == before + FailEvents(now, nextId, c.jobId, c, failure, asked);
        nextId := nextId + IDS_PER_STEP;
      }
    }

    /** Claim one due row: the UPDATE, the attempt INSERT and the outbox INSERT of the source's loop. */
    method ClaimRow(owner: string, id: JobId) returns (claim: ClaimedJob)
      requires id in jobs && Due(now, jobs[id])
      modifies this
      ensures Db() == Step(old(Db()), Act(id, JobAction.Claim(owner)))
      ensures claim == ClaimFrom(old(nextId), id, old(jobs)[id], owner)
      ensures HeldClaim(now, lease, jobs, attempts, claim) && now == old(now)
      ensures SameElsewhere(old(jobs), old(attempts), jobs, attempts, id)
    {
      var row := jobs[id];
      var n := row.attemptNumber + 1;
      jobs := jobs[id := JobRow(row.spec, row.availableAt, RowClaimed, n, Some(owner), Some(nextId), Some(now),
                                Some(now + lease), row.createdAt, now, row.version + 1)];
      claim := ClaimedJob(id, row.spec, n, owner, nextId);
      var attempt := AttemptRow(nextId, owner, now, None, None, None, None, None, None);
      attempts := attempts[id := RowsOf(attempts, id)[n := attempt]];
      outbox := outbox + [Emit(nextId, ItemRetrieved, id, row.spec, now, n, None, None, None, None)];
      nextId := nextId + IDS_PER_STEP;
    }

    /** One iteration of the loop over the claimed rows. */
    method ClaimNext(owner: string, due: seq<JobId>, i: nat, ghost start: Database) returns (claim: ClaimedJob)
      requires i < |due| && due[i] in jobs && Due(now, jobs[due[i]])
      requires Db() == Run(start, Each(due[..i], JobAction.Claim(owner)))
      modifies this
      ensures Db() == Run(start, Each(due[..i + 1], JobAction.Claim(owner)))
      ensures claim.jobId == due[i] && HeldClaim(now, lease, jobs, attempts, claim) && now == old(now)
      ensures SameElsewhere(old(jobs), old(attempts), jobs, attempts, due[i])
    {
      EachExtends(due, i, JobAction.Claim(owner));
      RunOne(start, Each(due[..i], JobAction.Claim(owner)), Act(due[i], JobAction.Claim(owner)));
      claim := ClaimRow(owner, due[i]);
    }

    /** The loop over the rows the claiming query returned. */
    method ClaimRows(owner: string, due: seq<JobId>) returns (claims: seq<ClaimedJob>)
      requires Distinct(due) && forall id | id in due :: id in jobs && Due(now, jobs[id])
      modifies this
      ensures |claims| == |due| && forall k | 0 <= k < |due| :: claims[k].jobId == due[k]
      ensures forall k | 0 <= k < |due| :: HeldClaim(now, lease, jobs, attempts, claims[k])
      ensures Db() == Run(old(Db()), Each(due, JobAction.Claim(owner)))
    {
      claims := [];
      ghost var start := Db();
      for i := 0 to |due|
        invariant |claims| == i && forall k | 0 <= k < i :: claims[k].jobId == due[k]
        invariant now == start.now
        invariant forall k | i <= k < |due| :: due[k] in jobs && jobs[due[k]] == start.jobs[due[k]]
        invariant Db() == Run(start, Each(due[..i], JobAction.Claim(owner)))
        invariant forall k | 0 <= k < i :: HeldClaim(now, lease, jobs, attempts, claims[k])
      {
        ghost var jobsBefore, attemptsBefore := jobs, attempts;
        var claim := ClaimNext(owner, due, i, start);
        HeldElsewhere(now, lease, jobsBefore, attemptsBefore, jobs, attempts, due[i], claims);
        claims := claims + [claim];
      }
      assert due[..|due|] == due;
    }

    /** `locked` are the rows SKIP LOCKED passes over. */
    method ClaimDue(owner: string, limit: int, locked: set<JobId>) returns (claims: seq<ClaimedJob>)
      modifies this
      ensures limit < 1 ==> claims == []
      ensures limit >= 1 ==> FirstOf(DueJobs(old(Db()), locked), limit, JobsOf(claims))
      ensures Db() == Run(old(Db()), Each(JobsOf(claims), JobAction.Claim(owner)))
      ensures forall k | 0 <= k < |claims| :: HeldClaim(now, lease, jobs, attempts, claims[k])
      ensures forall k, t | 0 <= k < |claims| ::
                claims[k].jobId in jobs && (Passes(t, jobs[claims[k].jobId], claims[k]) <==> t <= now + lease)
    {
      claims := [];
      if limit >= 1 {
        var due := SelectFirst(DueJobs(Db(), locked), limit);
        ListedFirst(DueJobs(Db(), locked), limit, due);
        claims := ClaimRows(owner, due);
        assert JobsOf(claims) == due;
        forall k | 0 <= k < |claims|
          ensures claims[k].jobId in jobs
          ensures forall t :: Passes(t, jobs[claims[k].jobId], claims[k]) <==> t <= now + lease
        {
          HeldForTheLease(now, lease, jobs, attempts, claims[k]);
        }
      }
    }

    /** Release one expired claim. */
    method RecoverRow(id: JobId)
      requires id in jobs && Expired(now, jobs[id])
      modifies this
      ensures Db() == Step(old(Db()), Act(id, Recover))
    {
      var row := jobs[id];
      jobs := jobs[id := JobRow(row.spec, now,
                                if row.attemptNumber < row.spec.maxAttempts then RowRetryWait else RowExhausted,
                                row.attemptNumber, None, None, None, None, row.createdAt, now, row.version + 1)];
      nextId := nextId + IDS_PER_STEP;
    }

    /** The rows the recovering query returned. */
    method RecoverRows(ids: seq<JobId>)
      requires Distinct(ids) && forall id | id in ids :: id in jobs && Expired(now, jobs[id])
      modifies this
      ensures Db() == Run(old(Db()), Each(ids, Recover))
      ensures outbox == old(outbox) && attempts == old(attempts)
    {
      ghost var start := Db();
      for i := 0 to |ids|
        invariant now == start.now && outbox == start.outbox && attempts == start.attempts
        invariant forall k | i <= k < |ids| :: ids[k] in jobs && jobs[ids[k]] == start.jobs[ids[k]]
        invariant Db() == Run(start, Each(ids[..i], Recover))
      {
        EachExtends(ids, i, Recover);
        RunOne(start, Each(ids[..i], Recover), Act(ids[i], Recover));
        RecoverRow(ids[i]);
      }
      assert ids[..|ids|] == ids;
    }

    method RecoverExpiredClaims(limit: nat, locked: set<JobId>) returns (recovered: seq<JobId>)
      modifies this
      ensures FirstByInstant(ExpiredJobs(old(Db()), locked), limit, recovered)
      ensures Db() == Run(old(Db()), Each(recovered, Recover))
      ensures outbox == old(outbox) && attempts == old(attempts)
    {
      recovered := SelectFirst(ExpiredJobs(Db(), locked), limit);
      ListedFirst(ExpiredJobs(Db(), locked), limit, recovered);
      RecoverRows(recovered);
    }
  }
}

/** When things may happen: how long a claim lasts, when recovery may take it back, how long a retry waits. */
module Timing {
  import opened Model
  import opened Scheduler
  import opened SchedulerLaws
  import opened Simulation
  import opened Runs

  // Claiming

  /** A claim takes effect exactly on a waiting row, from its available_at on. */
  lemma ClaimableFrom(db: Database, id: JobId, owner: string)
    requires Good(db) && id in db.jobs
    ensures var row := db.jobs[id];
            Transaction(db.now, db.lease, db.nextId, id, Slice(db, id), Claim(owner)).Some? <==>
              (row.status.RowPending? || row.status.RowRetryWait?) && row.availableAt <= db.now
  {
  }

  /** A submitted job can be claimed from the instant it is scheduled for. */
  lemma SubmittedIsClaimable(db: Database, value: JobSubmission, seconds: nat, owner: string)
    requires value.jobId !in db.jobs
    ensures var later := Step(Step(db, Submit(value)), Tick(seconds));
            && value.jobId in later.jobs
            && (Transaction(later.now, later.lease, later.nextId, value.jobId, Slice(later, value.jobId),
                            Claim(owner)).Some? <==>
                  value.spec.scheduledAt <= db.now + seconds)
  {
  }

  // Leases

  /** The row is under this claim, at least until the given instant. */
  predicate UnderClaim(row: JobRow, c: ClaimedJob, until: Time) {
    && row.status.Held()
    && row.attemptNumber == c.attemptNumber
    && row.claimedBy == Some(c.claimedBy) && row.claimToken == Some(c.claimToken)
    && row.claimExpiresAt.Some? && until <= row.claimExpiresAt.value
  }

  /** If the row is under this claim at all, then at most until the given instant. */
  predicate NoLongerThan(row: JobRow, c: ClaimedJob, until: Time) {
    && c.attemptNumber <= row.attemptNumber
    && (row.attemptNumber == c.attemptNumber && row.claimExpiresAt.Some? ==> row.claimExpiresAt.value <= until)
  }

  datatype Effect = Completes | Extends

  predicate HasEffect(effect: Effect, a: JobAction) {
    match effect
    case Completes => a.Succeed? || a.Fail?
    case Extends => a.Heartbeat?
  }

  predicate TakesEffect(db: Database, a: Action, id: JobId, effect: Effect) {
    && a.Act? && a.jobId == id && id in db.jobs && HasEffect(effect, a.action)
    && Transaction(db.now, db.lease, db.nextId, id, Slice(db, id), a.action).Some?
  }

  /** No such transaction on the job takes effect in the run. */
  predicate Never(db: Database, actions: seq<Action>, id: JobId, effect: Effect) {
    actions == [] ||
    (Never(db, actions[..|actions| - 1], id, effect)
     && !TakesEffect(Run(db, actions[..|actions| - 1]), actions[|actions| - 1], id, effect))
  }

  lemma UnderClaimStep(now: Time, lease: nat, nextId: nat, id: JobId, s: JobState, a: JobAction, c: ClaimedJob,
                       until: Time)
    requires JobInv(now, s) && Permitted(now, id, s, a) && UnderClaim(s.row, c, until)
    requires now <= until <= now + lease
    requires HasEffect(Completes, a) ==> Transaction(now, lease, nextId, id, s, a).None?
    ensures UnderClaim(JobStep(now, lease, nextId, id, s, a).row, c, until)
  {
  }

  lemma NoLongerStep(now: Time, lease: nat, nextId: nat, id: JobId, s: JobState, a: JobAction, c: ClaimedJob,
                     until: Time)
    requires JobInv(now, s) && Permitted(now, id, s, a) && NoLongerThan(s.row, c, until)
    requires HasEffect(Extends, a) ==> Transaction(now, lease, nextId, id, s, a).None?
    ensures NoLongerThan(JobStep(now, lease, nextId, id, s, a).row, c, until)
  {
  }

  lemma {:induction false} ClockOnly(db: Database, actions: seq<Action>)
    ensures db.now <= Run(db, actions).now && Run(db, actions).lease == db.lease
  {
    if actions != [] {
      ClockOnly(db, actions[..|actions| - 1]);
      StepClock(Run(db, actions[..|actions| - 1]), actions[|actions| - 1]);
    }
  }

  lemma UnderClaimAct(db: Database, a: Action, id: JobId, c: ClaimedJob, until: Time)
    requires Good(db) && Allowed(db, a) && id in db.jobs && UnderClaim(db.jobs[id], c, until)
    requires db.now <= until <= db.now + db.lease && !TakesEffect(db, a, id, Completes)
    ensures id in Step(db, a).jobs && UnderClaim(Step(db, a).jobs[id], c, until)
  {
    StepSlice(db, a, id);
    assert JobGood(db.now, id, Slice(db, id));
    if a.Act? && a.jobId == id {
      UnderClaimStep(db.now, db.lease, db.nextId, id, Slice(db, id), a.action, c, until);
    }
  }

  lemma {:induction false} StaysUnderClaim(db: Database, later: seq<Action>, id: JobId, c: ClaimedJob, until: Time)
    requires Good(db) && ValidRun(db, later) && id in db.jobs && UnderClaim(db.jobs[id], c, until)
    requires until <= db.now + db.lease && Never(db, later, id, Completes) && Run(db, later).now <= until
    ensures id in Run(db, later).jobs && UnderClaim(Run(db, later).jobs[id], c, until)
  {
    if later != [] {
      var init, last := later[..|later| - 1], later[|later| - 1];
      ClockOnly(db, init);
      StepClock(Run(db, init), last);
      StaysUnderClaim(db, init, id, c, until);
      RunGood(db, init);
      UnderClaimAct(Run(db, init), last, id, c, until);
    }
  }

  lemma NoLongerAct(db: Database, a: Action, id: JobId, c: ClaimedJob, until: Time)
    requires Good(db) && Allowed(db, a) && id in db.jobs && NoLongerThan(db.jobs[id], c, until)
    requires !TakesEffect(db, a, id, Extends)
    ensures id in Step(db, a).jobs && NoLongerThan(Step(db, a).jobs[id], c, until)
  {
    StepSlice(db, a, id);
    assert JobGood(db.now, id, Slice(db, id));
    if a.Act? && a.jobId == id {
      NoLongerStep(db.now, db.lease, db.nextId, id, Slice(db, id), a.action, c, until);
    }
  }

  lemma {:induction false} StaysNoLonger(db: Database, later: seq<Action>, id: JobId, c: ClaimedJob, until: Time)
    requires Good(db) && ValidRun(db, later) && id in db.jobs && NoLongerThan(db.jobs[id], c, until)
    requires Never(db, later, id, Extends)
    ensures id in Run(db, later).jobs && NoLongerThan(Run(db, later).jobs[id], c, until)
  {
    if later != [] {
      var init, last := later[..|later| - 1], later[|later| - 1];
      StaysNoLonger(db, init, id, c, until);
      RunGood(db, init);
      NoLongerAct(Run(db, init), last, id, c, until);
    }
  }

  /** What holds of a claim granted, or extended, until an instant. */
  ghost predicate LastsUntil(db: Database, later: seq<Action>, id: JobId, c: ClaimedJob, until: Time) {
    var end := Run(db, later);
    && id in end.jobs
    && (Never(db, later, id, Completes) && end.now <= until ==>
          && Passes(end.now, end.jobs[id], c)
          && Transaction(end.now, end.lease, end.nextId, id, Slice(end, id), Recover).None?)
    && (Never(db, later, id, Extends) && end.now > until ==> !Passes(end.now, end.jobs[id], c))
  }

  lemma HeldBack(db: Database, id: JobId, c: ClaimedJob, until: Time)
    requires id in db.jobs && UnderClaim(db.jobs[id], c, until) && db.now <= until
    ensures Passes(db.now, db.jobs[id], c)
    ensures Transaction(db.now, db.lease, db.nextId, id, Slice(db, id), Recover).None?
  {
  }

  lemma RunOut(db: Database, id: JobId, c: ClaimedJob, until: Time)
    requires id in db.jobs && NoLongerThan(db.jobs[id], c, until) && db.now > until
    ensures !Passes(db.now, db.jobs[id], c)
  {
  }

  lemma {:induction false} GrantedUntil(db: Database, later: seq<Action>, id: JobId, c: ClaimedJob, until: Time)
    requires Good(db) && ValidRun(db, later) && id in db.jobs && until <= db.now + db.lease
    requires UnderClaim(db.jobs[id], c, until) && NoLongerThan(db.jobs[id], c, until)
    ensures LastsUntil(db, later, id, c, until)
  {
    RunGrows(db, later, id);
    if Never(db, later, id, Completes) && Run(db, later).now <= until {
      StaysUnderClaim(db, later, id, c, until);
      HeldBack(Run(db, later), id, c, until);
    }
    if Never(db, later, id, Extends) && Run(db, later).now > until {
      StaysNoLonger(db, later, id, c, until);
      RunOut(Run(db, later), id, c, until);
    }
  }

  /** A claim made at an instant passes until that instant plus the lease, whatever other workers do, unless it
      is completed; until then recovery has no effect; and without a heartbeat it passes no longer. */
  lemma {:induction false} ClaimLasts(db: Database, id: JobId, owner: string, later: seq<Action>)
    requires Good(db) && id in db.jobs && Due(db.now, db.jobs[id])
    requires ValidRun(Step(db, Act(id, Claim(owner))), later)
    ensures LastsUntil(Step(db, Act(id, Claim(owner))), later, id, ClaimFrom(db.nextId, id, db.jobs[id], owner),
                       db.now + db.lease)
  {
    var next := Step(db, Act(id, Claim(owner)));
    StepGood(db, Act(id, Claim(owner)));
    StepSlice(db, Act(id, Claim(owner)), id);
    GrantedUntil(next, later, id, ClaimFrom(db.nextId, id, db.jobs[id], owner), db.now + db.lease);
  }

  /** A heartbeat that takes effect makes the claim last from its own instant. */
  lemma {:induction false} HeartbeatLasts(db: Database, id: JobId, c: ClaimedJob, later: seq<Action>)
    requires Good(db) && id in db.jobs && Genuine(id, Slice(db, id), c) && Passes(db.now, db.jobs[id], c)
    requires ValidRun(Step(db, Act(id, JobAction.Heartbeat(c))), later)
    ensures LastsUntil(Step(db, Act(id, JobAction.Heartbeat(c))), later, id, c, db.now + db.lease)
  {
    var next := Step(db, Act(id, JobAction.Heartbeat(c)));
    assert JobGood(db.now, id, Slice(db, id));
    StepGood(db, Act(id, JobAction.Heartbeat(c)));
    StepSlice(db, Act(id, JobAction.Heartbeat(c)), id);
    GrantedUntil(next, later, id, c, db.now + db.lease);
  }

  /** Claims that differ in attempt, owner or token never both pass. */
  lemma OnlyItsOwnClaim(now: Time, row: JobRow, c: ClaimedJob, d: ClaimedJob)
    requires Passes(now, row, c) && Passes(now, row, d)
    ensures c.attemptNumber == d.attemptNumber && c.claimedBy == d.claimedBy && c.claimToken == d.claimToken
  {
  }

  /** Recovery takes effect exactly on a held row whose claim has run out. */
  lemma RecoveryExactly(db: Database, id: JobId)
    requires id in db.jobs
    ensures Transaction(db.now, db.lease, db.nextId, id, Slice(db, id), Recover).Some? <==>
              && (db.jobs[id].status.RowClaimed? || db.jobs[id].status.RowRunning?)
              && db.jobs[id].claimExpiresAt.Some? && db.now > db.jobs[id].claimExpiresAt.value
  {
  }

  /** A recovered job is exhausted on its last attempt, and due at once otherwise. */
  lemma RecoveryIsPrompt(db: Database, id: JobId)
    requires id in db.jobs && Expired(db.now, db.jobs[id])
    ensures var row, next := db.jobs[id], Step(db, Act(id, Recover));
            && id in next.jobs && next.now == db.now
            && next.jobs[id].claimToken.None? && next.jobs[id].claimExpiresAt.None?
            && next.jobs[id].availableAt == db.now && next.jobs[id].attemptNumber == row.attemptNumber
            && (row.attemptNumber < row.spec.maxAttempts ==> next.jobs[id].status.RowRetryWait?)
            && (row.attemptNumber == row.spec.maxAttempts ==> next.jobs[id].status.RowExhausted?)
  {
    RecoverTables(db, id);
    RecoveredRow(db.now, db.jobs[id]);
    ActClock(db, id, Recover);
  }

  lemma RecoveredRow(now: Time, row: JobRow)
    ensures var next := RecoverChange(now, row).row;
            && next.claimToken.None? && next.claimExpiresAt.None?
            && next.availableAt == now && next.attemptNumber == row.attemptNumber
            && (row.attemptNumber < row.spec.maxAttempts ==> next.status.RowRetryWait?)
            && (row.attemptNumber == row.spec.maxAttempts ==> next.status.RowExhausted?)
            && next.updatedAt == now && next.version == row.version + 1 && Unclaimed(next)
  {
  }

  lemma ActClock(db: Database, id: JobId, a: JobAction)
    ensures Step(db, Act(id, a)).now == db.now
  {
  }

  // Retries

  /** Two seconds after the first attempt, twice as long after each further one, and never above 300. */
  function Wait(n: Positive): nat {
    if n == 1 then 2
    else
      var doubled := 2 * Wait(n - 1);
      if doubled < 300 then doubled else 300
  }

  lemma {:induction false} DelayIsWait(n: Positive)
    ensures RetryDelay(n) == Wait(n)
  {
    if n == 1 {
      assert Power2(1) == 2 * Power2(0);
    } else {
      DelayIsWait(n - 1);
      assert Power2(n) == 2 * Power2(n - 1);
    }
  }

  lemma {:induction false} WaitShape(n: Positive)
    ensures Wait(1) == 2 && 2 <= Wait(n) <= 300
    ensures Wait(n + 1) == if Wait(n) < 150 then 2 * Wait(n) else 300
    ensures n >= 9 ==> Wait(n) == 300
  {
    if n > 1 {
      WaitShape(n - 1);
    }
    if n >= 9 {
      LongWait(n);
    }
  }

  lemma {:induction false} LongWait(n: Positive)
    requires n >= 9
    ensures Wait(n) == 300
  {
    if n == 9 {
      assert Wait(2) == 4 && Wait(3) == 8 && Wait(4) == 16;
      assert Wait(5) == 32 && Wait(6) == 64 && Wait(7) == 128;
      assert Wait(8) == 256;
    } else {
      LongWait(n - 1);
    }
  }

  /** A recorded retry instant is a full wait after some instant between claim and completion. */
  predicate RetryTimed(n: nat, a: AttemptRow) {
    a.nextRetryAt.Some? ==>
      && n >= 1 && a.completedAt.Some?
      && a.claimedAt + RetryDelay(n) <= a.nextRetryAt.value <= a.completedAt.value + RetryDelay(n)
  }

  ghost predicate Timed(s: JobState) {
    forall n | n in s.attempts :: RetryTimed(n, s.attempts[n])
  }

  lemma TimedStep(now: Time, lease: nat, nextId: nat, id: JobId, s: JobState, a: JobAction)
    requires JobInv(now, s) && Timed(s) && Permitted(now, id, s, a)
    ensures Timed(JobStep(now, lease, nextId, id, s, a))
  {
  }

  ghost predicate AllTimed(db: Database) {
    forall id | id in db.jobs :: Timed(Slice(db, id))
  }

  lemma StepTimed(db: Database, a: Action)
    requires Good(db) && AllTimed(db) && Allowed(db, a)
    ensures AllTimed(Step(db, a))
  {
    forall id | id in Step(db, a).jobs ensures Timed(Slice(Step(db, a), id)) {
      if id in db.jobs {
        StepSlice(db, a, id);
        assert JobGood(db.now, id, Slice(db, id));
        if a.Act? && a.jobId == id {
          TimedStep(db.now, db.lease, db.nextId, id, Slice(db, id), a.action);
        }
      } else {
        SubmitSlice(db, a.value);
      }
    }
  }

  lemma {:induction false} RunTimed(db: Database, actions: seq<Action>)
    requires Good(db) && AllTimed(db) && ValidRun(db, actions)
    ensures AllTimed(Run(db, actions))
  {
    if actions != [] {
      RunTimed(db, actions[..|actions| - 1]);
      RunGood(db, actions[..|actions| - 1]);
      StepTimed(Run(db, actions[..|actions| - 1]), actions[|actions| - 1]);
    }
  }

  /** After any run, a job waiting to retry a failed attempt n is available again a full Wait(n) after an
      instant between the attempt's claim and its completion. */
  lemma {:induction false} RetriesWait(now: Time, lease: nat, actions: seq<Action>, id: JobId)
    requires ValidRun(Empty(now, lease), actions) && id in Run(Empty(now, lease), actions).jobs
    requires var s := Slice(Run(Empty(now, lease), actions), id); s.row.status.RowRetryWait? && Closed(s)
    ensures var s := Slice(Run(Empty(now, lease), actions), id);
            var n := s.row.attemptNumber;
            && n >= 1 && s.attempts[n].completedAt.Some?
            && s.attempts[n].claimedAt + Wait(n) <= s.row.availableAt <= s.attempts[n].completedAt.value + Wait(n)
  {
    EmptyGood(now, lease);
    RunGood(Empty(now, lease), actions);
    RunTimed(Empty(now, lease), actions);
    var db := Run(Empty(now, lease), actions);
    var s := Slice(db, id);
    assert JobGood(db.now, id, s) && Timed(s);
    TimedRow(db.now, s);
    DelayIsWait(s.row.attemptNumber);
  }

  lemma TimedRow(now: Time, s: JobState)
    requires JobInv(now, s) && Timed(s) && s.row.status.RowRetryWait? && Closed(s)
    ensures var n := s.row.attemptNumber;
            && n >= 1 && s.attempts[n].completedAt.Some?
            && s.attempts[n].claimedAt + RetryDelay(n) <= s.row.availableAt
            && s.row.availableAt <= s.attempts[n].completedAt.value + RetryDelay(n)
  {
    assert RetryTimed(s.row.attemptNumber, s.attempts[s.row.attemptNumber]);
  }
}

/** A worker's pass: recover, claim, then execute each claim, every transaction in its own step. */
module SchedulerWorker {
  import opened Model
  import opened Scheduler
  import opened SchedulerLaws
  import opened Runs
  import opened Ordering
  import opened SchedulerService

  /** The failure `execute` reports for an outcome, or None when it reports success. */
  function FailureOf(outcome: HandlerOutcome): Option<HandlerFailure> {
    match outcome
    case Returned => None
    case RaisedHandlerError(failure) => Some(failure)
    case RaisedOther => Some(HandlerFailure("UNEXPECTED_HANDLER_ERROR", true))
  }

  function CompletionOf(c: ClaimedJob, outcome: HandlerOutcome, at: Time): JobAction {
    var failure := FailureOf(outcome);
    if failure.Some? then JobAction.Fail(c, failure.value, at) else JobAction.Succeed(c)
  }

  predicate PassesIn(db: Database, c: ClaimedJob) {
    c.jobId in db.jobs && Passes(db.now, db.jobs[c.jobId], c)
  }

  /** The transactions of `execute` when the handler takes `duration`: it stops at a stale claim. */
  function ExecuteActions(db: Database, c: ClaimedJob, outcome: HandlerOutcome, duration: nat): seq<Action> {
    if !PassesIn(db, c) then []
    else [Act(c.jobId, JobAction.Start(c))] + Tail(c, outcome, duration, db.now)
  }

  /** What follows a start made at `startedAt`. */
  function Tail(c: ClaimedJob, outcome: HandlerOutcome, duration: nat, startedAt: Time): seq<Action> {
    [Tick(duration), Act(c.jobId, CompletionOf(c, outcome, startedAt + duration))]
  }

  /** The claim is not the job's own, or its lease ends before a handler that takes `duration` returns. */
  predicate GoesStale(db: Database, c: ClaimedJob, duration: nat) {
    !(c.jobId in db.jobs && Passes(db.now + duration, db.jobs[c.jobId], c))
  }

  /** Starting moves neither the fence nor the clock. */
  lemma StartKeepsFence(db: Database, c: ClaimedJob, duration: nat)
    requires PassesIn(db, c)
    ensures var ready := Step(Step(db, Act(c.jobId, JobAction.Start(c))), Tick(duration));
            ready.now == db.now + duration && (PassesIn(ready, c) <==> !GoesStale(db, c, duration))
  {
  }

  lemma RunTwo(db: Database, a: Action, b: Action)
    ensures Run(db, [a, b]) == Step(Step(db, a), b)
  {
    assert [] + [a] == [a] && [a] + [b] == [a, b];
    RunOne(db, [], a);
    RunOne(db, [a], b);
  }

  lemma RunThree(db: Database, a: Action, b: Action, c: Action)
    ensures Run(db, [a, b, c]) == Step(Step(Step(db, a), b), c)
  {
    assert [a, b] + [c] == [a, b, c];
    RunTwo(db, a, b);
    RunOne(db, [a, b], c);
  }

  lemma ExecuteUnrolled(db: Database, c: ClaimedJob, outcome: HandlerOutcome, duration: nat)
    requires PassesIn(db, c)
    ensures var ready := Step(Step(db, Act(c.jobId, JobAction.Start(c))), Tick(duration));
            && ready.now == db.now + duration
            && (PassesIn(ready, c) <==> !GoesStale(db, c, duration))
            && Run(db, ExecuteActions(db, c, outcome, duration))
               == Step(ready, Act(c.jobId, CompletionOf(c, outcome, ready.now)))
  {
    var start := Act(c.jobId, JobAction.Start(c));
    var completion := Act(c.jobId, CompletionOf(c, outcome, db.now + duration));
    StartKeepsFence(db, c, duration);
    RunThree(db, start, Tick(duration), completion);
    assert [start, Tick(duration), completion] == ExecuteActions(db, c, outcome, duration);
  }

  method Complete(service: SchedulerService, c: ClaimedJob, outcome: HandlerOutcome) returns (ok: bool)
    modifies service
    ensures service.Db() == Step(old(service.Db()), Act(c.jobId, CompletionOf(c, outcome, old(service.now))))
    ensures ok <==> PassesIn(old(service.Db()), c)
  {
    match FailureOf(outcome) {
      case Some(failure) => ok := service.Fail(c, failure, service.now);
      case None => ok := service.Succeed(c);
    }
  }

  /** The row shows how the handler left: success, a failure for good, or a retryable failure, which is retried
      while attempts remain; an exception of any other kind is retryable. */
  predicate Concluded(db: Database, c: ClaimedJob, outcome: HandlerOutcome) {
    && c.jobId in db.jobs
    && var status := db.jobs[c.jobId].status;
       match outcome
       case Returned => status.RowSucceeded?
       case RaisedHandlerError(failure) =>
         if !failure.retryable then status.RowFailed?
         else if c.attemptNumber < c.spec.maxAttempts then status.RowRetryWait? else status.RowExhausted?
       case RaisedOther =>
         if c.attemptNumber < c.spec.maxAttempts then status.RowRetryWait? else status.RowExhausted?
  }

  lemma CompletionConcludes(db: Database, c: ClaimedJob, outcome: HandlerOutcome)
    requires PassesIn(db, c)
    ensures Concluded(Step(db, Act(c.jobId, CompletionOf(c, outcome, db.now))), c, outcome)
  {
  }

  /** Only an exception the handler does not declare is reported under the general code. */
  lemma FailureCodes(outcome: HandlerOutcome)
    ensures outcome.Returned? <==> FailureOf(outcome).None?
    ensures outcome.RaisedHandlerError? ==> FailureOf(outcome) == Some(outcome.failure)
    ensures outcome.RaisedOther? ==> FailureOf(outcome) == Some(HandlerFailure("UNEXPECTED_HANDLER_ERROR", true))
  {
  }

  method Execute(service: SchedulerService, c: ClaimedJob, outcome: HandlerOutcome, duration: nat)
    returns (result: ExecuteResult)
    modifies service
    ensures service.Db() == Run(old(service.Db()), ExecuteActions(old(service.Db()), c, outcome, duration))
    ensures result.Stale? <==> GoesStale(old(service.Db()), c, duration)
    ensures !result.Stale? ==> (result.Completed? <==> outcome.Returned?)
    ensures !result.Stale? ==> Concluded(service.Db(), c, outcome)
  {
    ghost var before := service.Db();
    var ok := service.Start(c);
    if !ok {
      return Stale;
    }
    ExecuteUnrolled(before, c, outcome, duration);
    service.Elapse(duration);
    ghost var ready := service.Db();
    if PassesIn(ready, c) {
      CompletionConcludes(ready, c, outcome);
    }
    ok := Complete(service, c, outcome);
    result := if !ok then Stale else if outcome.Returned? then Completed else Retreated;
  }

  // Everything a worker does is a valid, execute-driven run

  /** `actions` lead from `db` to `end`, are all permitted, and complete only started attempts. */
  ghost predicate DrivenRun(db: Database, actions: seq<Action>, end: Database) {
    ValidRun(db, actions) && Driven(db, actions) && end == Run(db, actions)
  }

  lemma DrivenOne(db: Database, actions: seq<Action>, end: Database, a: Action)
    requires DrivenRun(db, actions, end) && Allowed(end, a) && StartsFirst(end, a)
    ensures DrivenRun(db, actions + [a], Step(end, a))
  {
    RunOne(db, actions, a);
    assert (actions + [a])[..|actions|] == actions;
  }

  lemma DrivenNone(db: Database)
    ensures DrivenRun(db, [], Run(db, []))
  {
  }

  lemma {:induction false} DrivenCompose(db: Database, first: seq<Action>, mid: Database, more: seq<Action>,
                                         end: Database)
    requires DrivenRun(db, first, mid) && DrivenRun(mid, more, end)
    ensures DrivenRun(db, first + more, end)
    decreases |more|
  {
    if more == [] {
      assert first + more == first;
    } else {
      var init, last := more[..|more| - 1], more[|more| - 1];
      DrivenCompose(db, first, mid, init, Run(mid, init));
      DrivenOne(db, first + init, Run(mid, init), last);
      assert first + more == (first + init) + [last];
    }
  }

  lemma {:induction false} GenuineKept(db: Database, later: seq<Action>, id: JobId, c: ClaimedJob)
    requires Good(db) && ValidRun(db, later) && id in db.jobs && Genuine(id, Slice(db, id), c)
    ensures id in Run(db, later).jobs && Genuine(id, Slice(Run(db, later), id), c)
  {
    RunGrows(db, later, id);
  }

  ghost predicate Issued(db: Database, c: ClaimedJob) {
    c.jobId in db.jobs && Genuine(c.jobId, Slice(db, c.jobId), c)
  }

  lemma StartedJob(now: Time, lease: nat, nextId: nat, id: JobId, s: JobState, c: ClaimedJob)
    requires JobInv(now, s) && Genuine(id, s, c) && Passes(now, s.row, c)
    ensures var t := JobStep(now, lease, nextId, id, s, JobAction.Start(c));
            && Genuine(id, t, c)
            && t.attempts[c.attemptNumber].startedAt.Some? && t.attempts[c.attemptNumber].claimedAt <= now
  {
  }

  /** The claim was issued and its attempt has been started. */
  ghost predicate Started(db: Database, c: ClaimedJob) {
    && Issued(db, c)
    && Slice(db, c.jobId).attempts[c.attemptNumber].startedAt.Some?
    && Slice(db, c.jobId).attempts[c.attemptNumber].claimedAt <= db.now
  }

  lemma StartedNow(db: Database, c: ClaimedJob)
    requires Good(db) && Issued(db, c) && PassesIn(db, c)
    ensures var next := Step(db, Act(c.jobId, JobAction.Start(c))); Wellformed(next) && Started(next, c)
    ensures Step(db, Act(c.jobId, JobAction.Start(c))).now == db.now
  {
    StepWellformed(db, Act(c.jobId, JobAction.Start(c)));
    StepSlice(db, Act(c.jobId, JobAction.Start(c)), c.jobId);
    StepClock(db, Act(c.jobId, JobAction.Start(c)));
    StartedJob(db.now, db.lease, db.nextId, c.jobId, Slice(db, c.jobId), c);
  }

  lemma StillStarted(db: Database, c: ClaimedJob, duration: nat)
    requires Wellformed(db) && Started(db, c)
    ensures Started(Step(db, Tick(duration)), c) && Step(db, Tick(duration)).now == db.now + duration
  {
    StepSlice(db, Tick(duration), c.jobId);
  }

  /** A started claim may be completed at any later instant. */
  lemma CompletionAllowed(db: Database, c: ClaimedJob, outcome: HandlerOutcome)
    requires Started(db, c)
    ensures Allowed(db, Act(c.jobId, CompletionOf(c, outcome, db.now)))
    ensures StartsFirst(db, Act(c.jobId, CompletionOf(c, outcome, db.now)))
  {
  }

  lemma StartRun(db: Database, c: ClaimedJob)
    requires Good(db) && Issued(db, c)
    ensures DrivenRun(db, [Act(c.jobId, JobAction.Start(c))], Step(db, Act(c.jobId, JobAction.Start(c))))
  {
    DrivenNone(db);
    DrivenOne(db, [], db, Act(c.jobId, JobAction.Start(c)));
    assert [] + [Act(c.jobId, JobAction.Start(c))] == [Act(c.jobId, JobAction.Start(c))];
  }

  lemma CompletionRun(db: Database, c: ClaimedJob, outcome: HandlerOutcome, duration: nat)
    requires Wellformed(db) && Started(db, c)
    ensures var tail := Tail(c, outcome, duration, db.now); DrivenRun(db, tail, Run(db, tail))
  {
    var tick, done := Tick(duration), Act(c.jobId, CompletionOf(c, outcome, db.now + duration));
    var later := Step(db, tick);
    StillStarted(db, c, duration);
    CompletionAllowed(later, c, outcome);
    DrivenNone(db);
    DrivenOne(db, [], db, tick);
    DrivenOne(db, [tick], later, done);
    assert [] + [tick] == [tick] && [tick] + [done] == Tail(c, outcome, duration, db.now);
  }

  lemma {:induction false} StartAndComplete(db: Database, started: Database, c: ClaimedJob, outcome: HandlerOutcome,
                                            duration: nat)
    requires DrivenRun(db, [Act(c.jobId, JobAction.Start(c))], started)
    requires Wellformed(started) && Started(started, c)
    ensures var actions := [Act(c.jobId, JobAction.Start(c))] + Tail(c, outcome, duration, started.now);
            DrivenRun(db, actions, Run(db, actions))
  {
    var tail := Tail(c, outcome, duration, started.now);
    CompletionRun(started, c, outcome, duration);
    DrivenCompose(db, [Act(c.jobId, JobAction.Start(c))], started, tail, Run(started, tail));
  }

  lemma {:induction false} ExecuteIsDriven(db: Database, c: ClaimedJob, outcome: HandlerOutcome, duration: nat)
    requires Good(db) && Issued(db, c)
    ensures DrivenRun(db, ExecuteActions(db, c, outcome, duration), Run(db, ExecuteActions(db, c, outcome, duration)))
  {
    if PassesIn(db, c) {
      StartRun(db, c);
      StartedNow(db, c);
      StartAndComplete(db, Step(db, Act(c.jobId, JobAction.Start(c))), c, outcome, duration);
    } else {
      DrivenNone(db);
    }
  }

  lemma {:induction false} EachIsDriven(db: Database, ids: seq<JobId>, a: JobAction)
    requires a.Claim? || a.Recover?
    ensures DrivenRun(db, Each(ids, a), Run(db, Each(ids, a)))
  {
    if ids != [] {
      var k := |ids| - 1;
      EachIsDriven(db, ids[..k], a);
      EachExtends(ids, k, a);
      assert ids[..k + 1] == ids;
      DrivenOne(db, Each(ids[..k], a), Run(db, Each(ids[..k], a)), Act(ids[k], a));
    }
  }

  lemma HeldIsIssued(db: Database, c: ClaimedJob)
    requires HeldClaim(db.now, db.lease, db.jobs, db.attempts, c)
    ensures Issued(db, c)
  {
  }

  /** What one pass did: the claims it took back, the claims it made, and the database before and after each
      execution. */
  datatype Pass = Pass(recovered: seq<JobId>, claims: seq<ClaimedJob>, states: seq<Database>)

  ghost function AfterRecovery(db: Database, pass: Pass): Database {
    Run(db, Each(pass.recovered, Recover))
  }

  ghost function AfterClaims(db: Database, owner: string, pass: Pass): Database {
    Run(AfterRecovery(db, pass), Each(JobsOf(pass.claims), JobAction.Claim(owner)))
  }

  /** Executing the claim leads from `db` to `end`, by permitted steps that complete only a started attempt. */
  ghost predicate Executes(db: Database, c: ClaimedJob, outcome: HandlerOutcome, duration: nat, end: Database) {
    DrivenRun(db, ExecuteActions(db, c, outcome, duration), end)
  }

  /** One execution per state after the first, each from the state before it. */
  ghost predicate Chain(claims: seq<ClaimedJob>, outcomes: nat -> HandlerOutcome, durations: nat -> nat,
                        states: seq<Database>) {
    && 0 < |states| <= |claims| + 1
    && forall k, next | 0 <= k < next < |states| && next == k + 1 ::
         Executes(states[k], claims[k], outcomes(k), durations(k), states[next])
  }

  /** No executed claim was stale when its turn came or when its handler returned, except, after a raise,
      exactly the last one. */
  ghost predicate StopsAtStale(claims: seq<ClaimedJob>, durations: nat -> nat, states: seq<Database>, raised: bool) {
    && |states| <= |claims| + 1
    && (raised ==> |states| > 1)
    && forall k | 0 <= k < |states| - 1 ::
         GoesStale(states[k], claims[k], durations(k)) <==> raised && k == |states| - 2
  }

  lemma ChainNext(claims: seq<ClaimedJob>, outcomes: nat -> HandlerOutcome, durations: nat -> nat,
                  states: seq<Database>, next: Database)
    requires Chain(claims, outcomes, durations, states) && |states| <= |claims|
    requires var k := |states| - 1; Executes(states[k], claims[k], outcomes(k), durations(k), next)
    ensures Chain(claims, outcomes, durations, states + [next])
  {
  }

  lemma StopsNext(claims: seq<ClaimedJob>, durations: nat -> nat, states: seq<Database>, next: Database, stale: bool)
    requires StopsAtStale(claims, durations, states, false) && 0 < |states| <= |claims|
    requires var k := |states| - 1; stale <==> GoesStale(states[k], claims[k], durations(k))
    ensures StopsAtStale(claims, durations, states + [next], stale)
  {
  }

  ghost predicate AllIssued(db: Database, claims: seq<ClaimedJob>) {
    forall k | 0 <= k < |claims| :: Issued(db, claims[k])
  }

  lemma {:induction false} ClaimsStayIssued(db: Database, later: seq<Action>, claims: seq<ClaimedJob>)
    requires Good(db) && ValidRun(db, later) && AllIssued(db, claims)
    ensures Good(Run(db, later)) && AllIssued(Run(db, later), claims)
  {
    RunGood(db, later);
    forall k | 0 <= k < |claims| ensures Issued(Run(db, later), claims[k]) {
      GenuineKept(db, later, claims[k].jobId, claims[k]);
    }
  }

  /** A batch under way: the executions so far lead from `start` to `end`. */
  ghost predicate BatchAt(start: Database, claims: seq<ClaimedJob>, outcomes: nat -> HandlerOutcome,
                          durations: nat -> nat, states: seq<Database>, actions: seq<Action>, end: Database,
                          raised: bool)
  {
    && Chain(claims, outcomes, durations, states) && StopsAtStale(claims, durations, states, raised)
    && states[0] == start && states[|states| - 1] == end
    && DrivenRun(start, actions, end) && Good(end) && AllIssued(end, claims)
  }

  lemma BatchStart(db: Database, claims: seq<ClaimedJob>, outcomes: nat -> HandlerOutcome, durations: nat -> nat)
    requires Good(db) && AllIssued(db, claims)
    ensures BatchAt(db, claims, outcomes, durations, [db], [], db, false)
  {
    DrivenNone(db);
  }

  lemma BatchNext(start: Database, claims: seq<ClaimedJob>, outcomes: nat -> HandlerOutcome, durations: nat -> nat,
                  states: seq<Database>, actions: seq<Action>, here: Database, more: seq<Action>, next: Database,
                  stale: bool)
    requires BatchAt(start, claims, outcomes, durations, states, actions, here, false) && |states| <= |claims|
    requires var k := |states| - 1;
             && Executes(here, claims[k], outcomes(k), durations(k), next)
             && (stale <==> GoesStale(here, claims[k], durations(k)))
    requires DrivenRun(here, more, next) && Good(next) && AllIssued(next, claims)
    ensures BatchAt(start, claims, outcomes, durations, states + [next], actions + more, next, stale)
  {
    DrivenCompose(start, actions, here, more, next);
    ChainNext(claims, outcomes, durations, states, next);
    StopsNext(claims, durations, states, next, stale);
  }

  class SchedulerWorker {
    const service: SchedulerService
    const owner: string
    const batchSize: nat
    const recoveryBatchSize: nat
    var stopping: bool

    constructor (service: SchedulerService, owner: string, batchSize: nat, recoveryBatchSize: nat)
      requires owner != "" && batchSize >= 1 && recoveryBatchSize >= 1
      ensures this.service == service && this.owner == owner && !stopping
      ensures this.batchSize == batchSize && this.recoveryBatchSize == recoveryBatchSize
    {
      this.service := service;
      this.owner := owner;
      this.batchSize := batchSize;
      this.recoveryBatchSize := recoveryBatchSize;
      this.stopping := false;
    }

    method RecoverPass(locked: set<JobId>) returns (ghost recovered: seq<JobId>)
      requires Good(service.Db())
      modifies service
      ensures FirstByInstant(ExpiredJobs(old(service.Db()), locked), recoveryBatchSize, recovered)
      ensures DrivenRun(old(service.Db()), Each(recovered, Recover), service.Db()) && Good(service.Db())
    {
      ghost var start := service.Db();
      recovered := service.RecoverExpiredClaims(recoveryBatchSize, locked);
      EachIsDriven(start, recovered, Recover);
      RunGood(start, Each(recovered, Recover));
    }

    method ClaimPass(locked: set<JobId>) returns (claims: seq<ClaimedJob>)
      requires Good(service.Db()) && batchSize >= 1
      modifies service
      ensures FirstOf(DueJobs(old(service.Db()), locked), batchSize, JobsOf(claims))
      ensures DrivenRun(old(service.Db()), Each(JobsOf(claims), JobAction.Claim(owner)), service.Db())
      ensures Good(service.Db())
      ensures AllIssued(service.Db(), claims)
      ensures forall k | 0 <= k < |claims| :: PassesIn(service.Db(), claims[k])
    {
      ghost var start := service.Db();
      claims := service.ClaimDue(owner, batchSize, locked);
      forall k | 0 <= k < |claims| ensures Issued(service.Db(), claims[k]) {
        HeldIsIssued(service.Db(), claims[k]);
      }
      EachIsDriven(start, JobsOf(claims), JobAction.Claim(owner));
      RunGood(start, Each(JobsOf(claims), JobAction.Claim(owner)));
    }

    /** Execute one claim of a batch. */
    method ExecuteOne(c: ClaimedJob, outcome: HandlerOutcome, duration: nat, ghost claims: seq<ClaimedJob>)
      returns (stale: bool, ghost actions: seq<Action>)
      requires Good(service.Db()) && Issued(service.Db(), c) && AllIssued(service.Db(), claims)
      modifies service
      ensures Executes(old(service.Db()), c, outcome, duration, service.Db())
      ensures DrivenRun(old(service.Db()), actions, service.Db())
      ensures Good(service.Db()) && AllIssued(service.Db(), claims)
      ensures stale <==> GoesStale(old(service.Db()), c, duration)
    {
      ghost var before := service.Db();
      actions := ExecuteActions(before, c, outcome, duration);
      ExecuteIsDriven(before, c, outcome, duration);
      ClaimsStayIssued(before, actions, claims);
      var result := Execute(service, c, outcome, duration);
      stale := result.Stale?;
    }

    /** One iteration of the loop over a batch. */
    method ExecuteNext(c: ClaimedJob, outcome: HandlerOutcome, duration: nat,
                       ghost start: Database, ghost claims: seq<ClaimedJob>, ghost outcomes: nat -> HandlerOutcome,
                       ghost durations: nat -> nat, ghost states: seq<Database>, ghost actions: seq<Action>)
      returns (stale: bool, ghost extended: seq<Database>, ghost longer: seq<Action>)
      requires BatchAt(start, claims, outcomes, durations, states, actions, service.Db(), false)
      requires |states| <= |claims|
      requires c == claims[|states| - 1] && outcome == outcomes(|states| - 1) && duration == durations(|states| - 1)
      modifies service
      ensures BatchAt(start, claims, outcomes, durations, extended, longer, service.Db(), stale)
      ensures |extended| == |states| + 1
    {
      ghost var here := service.Db();
      ghost var more;
      stale, more := ExecuteOne(c, outcome, duration, claims);
      BatchNext(start, claims, outcomes, durations, states, actions, here, more, service.Db(), stale);
      extended, longer := states + [service.Db()], actions + more;
    }

    /** Execute a batch in order; a stale claim raises out of it, leaving the rest to expire. */
    method ExecuteBatch(claims: seq<ClaimedJob>, outcomes: nat -> HandlerOutcome, durations: nat -> nat)
      returns (raised: bool, ghost states: seq<Database>, ghost actions: seq<Action>)
      requires Good(service.Db()) && AllIssued(service.Db(), claims)
      modifies service
      ensures BatchAt(old(service.Db()), claims, outcomes, durations, states, actions, service.Db(), raised)
      ensures !raised ==> |states| == if stopping then 1 else |claims| + 1
    {
      ghost var start := service.Db();
      raised, states, actions := false, [start], [];
      BatchStart(start, claims, outcomes, durations);
      var i := 0;
      while i < |claims| && !stopping && !raised
        invariant i <= |claims| && |states| == i + 1
        invariant BatchAt(start, claims, outcomes, durations, states, actions, service.Db(), raised)
        invariant stopping ==> i == 0
        decreases |claims| - i
      {
        raised, states, actions :=
          ExecuteNext(claims[i], outcomes(i), durations(i), start, claims, outcomes, durations, states, actions);
        i := i + 1;
      }
    }

    /** One pass.  `outcomes` and `durations` are what the handlers do, `locked` the rows concurrent
        transactions hold: it recovers the first expired claims, claims the first due jobs, and executes
        them in order up to and including the first stale one; throughout, only attempts it has started are
        completed. */
    method RunOnce(locked: set<JobId>, outcomes: nat -> HandlerOutcome, durations: nat -> nat)
      returns (count: nat, raised: bool, ghost pass: Pass, ghost actions: seq<Action>)
      requires Good(service.Db()) && batchSize >= 1
      modifies service
      ensures count == |pass.claims|
      ensures FirstByInstant(ExpiredJobs(old(service.Db()), locked), recoveryBatchSize, pass.recovered)
      ensures FirstOf(DueJobs(AfterRecovery(old(service.Db()), pass), locked), batchSize, JobsOf(pass.claims))
      ensures forall k | 0 <= k < count :: PassesIn(AfterClaims(old(service.Db()), owner, pass), pass.claims[k])
      ensures Chain(pass.claims, outcomes, durations, pass.states)
      ensures pass.states[0] == AfterClaims(old(service.Db()), owner, pass)
      ensures pass.states[|pass.states| - 1] == service.Db()
      ensures !raised ==> |pass.states| == if stopping then 1 else count + 1
      ensures StopsAtStale(pass.claims, durations, pass.states, raised)
      ensures DrivenRun(old(service.Db()), actions, service.Db()) && Good(service.Db())
    {
      ghost var start := service.Db();
      ghost var recovered := RecoverPass(locked);
      ghost var mid := service.Db();
      var claims := ClaimPass(locked);
      ghost var held := service.Db();
      ghost var states, executing;
      raised, states, executing := ExecuteBatch(claims, outcomes, durations);
      count, pass := |claims|, Pass(recovered, claims, states);
      ghost var recover, claim := Each(recovered, Recover), Each(JobsOf(claims), JobAction.Claim(owner));
      DrivenCompose(start, recover, mid, claim, held);
      DrivenCompose(start, recover + claim, held, executing, service.Db());
      actions := recover + claim + executing;
    }
  }
}

/** Whole runs of the scheduler: any number of workers, stale claims, expired leases and crashes. */
module Runs {
  import opened Model
  import opened Reducer
  import opened Scheduler
  import opened SchedulerLaws
  import opened Simulation
  import opened TraceLaws
  import opened TraceLanguage

  // From tables to one job's slice

  ghost predicate FreshEvents(es: seq<Event>, id: JobId, nextId: nat) {
    && (forall e | e in es :: e.jobId == id && nextId <= e.eventId < nextId + IDS_PER_STEP)
    && DistinctIds(es)
  }

  lemma TransactionEvents(now: Time, lease: nat, nextId: nat, id: JobId, s: JobState, a: JobAction)
    requires Transaction(now, lease, nextId, id, s, a).Some?
    ensures FreshEvents(Transaction(now, lease, nextId, id, s, a).value.events, id, nextId)
  {
  }

  /** The tables refer only to submitted jobs, and the outbox key is unique. */
  ghost predicate Wellformed(db: Database) {
    && db.attempts.Keys <= db.jobs.Keys
    && (forall e | e in db.outbox :: e.jobId in db.jobs && e.eventId < db.nextId)
    && DistinctIds(db.outbox)
  }

  lemma AppendKeepsUnique(es: seq<Event>, fs: seq<Event>, id: JobId, nextId: nat)
    requires forall e | e in es :: e.eventId < nextId
    requires DistinctIds(es)
    requires FreshEvents(fs, id, nextId)
    ensures DistinctIds(es + fs)
  {
    forall i, k | 0 <= i < k < |es + fs| ensures (es + fs)[i].eventId != (es + fs)[k].eventId {
      if i < |es| { assert es[i] in es; }
      if k < |es| { assert es[k] in es; } else { assert fs[k - |es|] in fs; }
    }
  }

  lemma WriteSlice(db: Database, id: JobId, change: Option<Change>, other: JobId)
    requires id in db.jobs && other in db.jobs
    requires change.Some? ==> FreshEvents(change.value.events, id, db.nextId)
    ensures other in Write(db, id, change).jobs
    ensures Slice(Write(db, id, change), other) ==
            if other == id then Commit(Slice(db, id), change) else Slice(db, other)
  {
    if change.Some? {
      TraceConcat(db.outbox, change.value.events, other);
      TraceOfJob(change.value.events, id, other);
    }
  }

  lemma WriteWellformed(db: Database, id: JobId, change: Option<Change>)
    requires Wellformed(db) && id in db.jobs
    requires change.Some? ==> FreshEvents(change.value.events, id, db.nextId)
    ensures Wellformed(Write(db, id, change))
  {
    if change.Some? {
      AppendKeepsUnique(db.outbox, change.value.events, id, db.nextId);
    }
  }

  /** One step moves exactly the slice of the job it names, by that job's own transaction. */
  lemma StepSlice(db: Database, a: Action, id: JobId)
    requires Wellformed(db) && id in db.jobs
    ensures id in Step(db, a).jobs
    ensures Slice(Step(db, a), id) ==
            if a.Act? && a.jobId == id then JobStep(db.now, db.lease, db.nextId, id, Slice(db, id), a.action)
            else Slice(db, id)
  {
    match a {
      case Tick(_) =>
      case Submit(value) =>
        if value.jobId !in db.jobs {
          var s := Submitted(db.now, db.nextId, value);
          TraceConcat(db.outbox, s.trace, id);
          TraceOfJob(s.trace, value.jobId, id);
        }
      case Act(owner, action) =>
        if owner in db.jobs {
          var change := Transaction(db.now, db.lease, db.nextId, owner, Slice(db, owner), action);
          if change.Some? {
            TransactionEvents(db.now, db.lease, db.nextId, owner, Slice(db, owner), action);
          }
          WriteSlice(db, owner, change, id);
        }
    }
  }

  lemma SubmitSlice(db: Database, value: JobSubmission)
    requires Wellformed(db) && value.jobId !in db.jobs
    ensures Slice(Step(db, Submit(value)), value.jobId) == Submitted(db.now, db.nextId, value)
  {
    var s := Submitted(db.now, db.nextId, value);
    TraceConcat(db.outbox, s.trace, value.jobId);
    TraceOfJob(s.trace, value.jobId, value.jobId);
    var before := Trace(db.outbox, value.jobId);
    if before != [] {
      TraceElements(db.outbox, value.jobId, before[0]);
    }
  }

  lemma StepWellformed(db: Database, a: Action)
    requires Wellformed(db)
    ensures Wellformed(Step(db, a))
  {
    match a {
      case Tick(_) =>
      case Submit(value) =>
        if value.jobId !in db.jobs {
          AppendKeepsUnique(db.outbox, Submitted(db.now, db.nextId, value).trace, value.jobId, db.nextId);
        }
      case Act(id, action) =>
        if id in db.jobs {
          var change := Transaction(db.now, db.lease, db.nextId, id, Slice(db, id), action);
          if change.Some? {
            TransactionEvents(db.now, db.lease, db.nextId, id, Slice(db, id), action);
          }
          WriteWellformed(db, id, change);
        }
    }
  }

  // The invariant of the whole database

  ghost predicate InLanguage(s: JobState) {
    exists rounds :: SpelledBy(s, rounds)
  }

  ghost predicate JobGood(now: Time, id: JobId, s: JobState) {
    && JobInv(now, s)
    && Agrees(now, s, Replay(id, s.trace))
    && Explained(id, s)
    && OutcomesOnce(s)
    && InLanguage(s)
  }

  ghost predicate Good(db: Database) {
    && Wellformed(db)
    && forall id | id in db.jobs :: JobGood(db.now, id, Slice(db, id))
  }

  lemma JobStepGood(now: Time, lease: nat, nextId: nat, id: JobId, s: JobState, a: JobAction)
    requires JobGood(now, id, s) && Permitted(now, id, s, a)
    ensures JobGood(now, id, JobStep(now, lease, nextId, id, s, a))
  {
    JobStepInv(now, lease, nextId, id, s, a);
    StepAgrees(now, lease, nextId, id, s, a);
    StepExplained(now, lease, nextId, id, s, a);
    StepOutcomes(now, lease, nextId, id, s, a);
    var rounds :| SpelledBy(s, rounds);
    StepSpelled(now, lease, nextId, id, s, a, rounds);
  }

  lemma SubmittedGood(now: Time, nextId: nat, value: JobSubmission)
    requires ValidSpec(value.spec)
    ensures JobGood(now, value.jobId, Submitted(now, nextId, value))
  {
    SubmittedInv(now, nextId, value);
    SubmittedAgrees(now, nextId, value);
    SubmittedTrace(now, nextId, value);
    SubmittedSpelled(now, nextId, value);
  }

  lemma LaterGood(now: Time, later: Time, id: JobId, s: JobState)
    requires JobGood(now, id, s) && now <= later
    ensures JobGood(later, id, s)
  {
    LaterInv(now, later, s);
    LaterAgrees(now, later, s, Replay(id, s.trace));
  }

  lemma StepClock(db: Database, a: Action)
    ensures db.now <= Step(db, a).now
    ensures a.Act? ==> Step(db, a).now == db.now
  {
  }

  lemma StepOldJob(db: Database, a: Action, id: JobId)
    requires Good(db) && Allowed(db, a) && id in db.jobs
    ensures id in Step(db, a).jobs && JobGood(Step(db, a).now, id, Slice(Step(db, a), id))
  {
    StepSlice(db, a, id);
    StepClock(db, a);
    if a.Act? && a.jobId == id {
      JobStepGood(db.now, db.lease, db.nextId, id, Slice(db, id), a.action);
    } else {
      LaterGood(db.now, Step(db, a).now, id, Slice(db, id));
    }
  }

  lemma StepNewJob(db: Database, a: Action, id: JobId)
    requires Good(db) && Allowed(db, a) && id !in db.jobs && id in Step(db, a).jobs
    ensures JobGood(Step(db, a).now, id, Slice(Step(db, a), id))
  {
    SubmitSlice(db, a.value);
    SubmittedGood(db.now, db.nextId, a.value);
  }

  lemma StepGood(db: Database, a: Action)
    requires Good(db) && Allowed(db, a)
    ensures Good(Step(db, a))
  {
    StepWellformed(db, a);
    forall id | id in Step(db, a).jobs ensures JobGood(Step(db, a).now, id, Slice(Step(db, a), id)) {
      if id in db.jobs {
        StepOldJob(db, a, id);
      } else {
        StepNewJob(db, a, id);
      }
    }
  }

  /** Every state of every run satisfies every per-job invariant. */
  lemma {:induction false} RunGood(db: Database, actions: seq<Action>)
    requires Good(db) && ValidRun(db, actions)
    ensures Good(Run(db, actions))
  {
    if actions != [] {
      RunGood(db, actions[..|actions| - 1]);
      StepGood(Run(db, actions[..|actions| - 1]), actions[|actions| - 1]);
    }
  }

  lemma EmptyGood(now: Time, lease: nat)
    ensures Good(Empty(now, lease))
  {
  }

  // Theorems over runs

  /** A finished job's recorded status, if the scheduler finished it by `succeed` or `fail`. */
  function FinalStatus(row: RowStatus): Option<Status> {
    match row
    case RowSucceeded => Some(Succeeded)
    case RowFailed => Some(Failed)
    case RowExhausted => Some(Exhausted)
    case _ => None
  }

  /** What the replay of a job's outbox shows about the job's rows. */
  ghost predicate ReplayMatches(s: JobState, j: JobVisibility) {
    && (j.status.Terminal() <==> s.row.status.Finished() && Closed(s))
    && (j.status.Terminal() ==> FinalStatus(s.row.status) == Some(j.status))
    && (s.row.status.Finished() && !Closed(s) ==> s.row.status.RowExhausted? && InFlight(j.status))
    && AttemptsAgree(s.attempts, j.attempts)
    && j.CompletedAttempts() == |set n | n in s.attempts && s.attempts[n].outcome.Some?|
    && (s.row.status.RowRetryWait? && Closed(s) ==>
          j.status.RetryScheduled? && j.retry.nextRetryAt == Some(s.row.availableAt))
    && j.findings == map[]
    && j.version == |s.trace|
    && (j.flags.incomplete <==> CompletedUnstarted(s.attempts))
    && j.description.maxAttempts == Max(3, s.row.spec.maxAttempts)
  }

  lemma AgreementShown(now: Time, s: JobState, j: JobVisibility)
    requires JobInv(now, s) && Agrees(now, s, j)
    ensures ReplayMatches(s, j)
  {
    var shown := set n | n in j.attempts
      && (j.attempts[n].status.AttemptSucceeded? || j.attempts[n].status.AttemptFailed?);
    var closed := set n | n in s.attempts && s.attempts[n].outcome.Some?;
    forall n ensures n in shown <==> n in closed {
      assert n in s.attempts ==> AttemptAgrees(n, s.attempts[n], j.attempts[n]);
    }
    assert shown == closed;
    if s.row.status.RowRetryWait? && Closed(s) {
      assert LastOutcome(s.attempts, s.row.attemptNumber);
    }
  }

  /** The main simulation theorem.  After any run, for every job: the in-order replay of its outbox shows a
      terminal status exactly when the row is finished and its newest attempt has an outcome, and then shows
      that status; a row finished by recovery stays in flight in the projection; the attempt tables agree. */
  lemma {:induction false} ReplayMatchesTables(now: Time, lease: nat, actions: seq<Action>, id: JobId)
    requires ValidRun(Empty(now, lease), actions) && id in Run(Empty(now, lease), actions).jobs
    ensures var s := Slice(Run(Empty(now, lease), actions), id); ReplayMatches(s, Replay(id, s.trace))
  {
    EmptyGood(now, lease);
    RunGood(Empty(now, lease), actions);
    var db := Run(Empty(now, lease), actions);
    var s := Slice(db, id);
    assert JobGood(db.now, id, s);
    AgreementShown(db.now, s, Replay(id, s.trace));
  }

  /** Any delivery of a job's outbox, however partial, duplicated or reordered, shows SUCCEEDED exactly when
      the success event arrived; that event exists exactly when the scheduler's row is SUCCEEDED. */
  lemma {:induction false} DeliveredSuccess(now: Time, lease: nat, actions: seq<Action>, id: JobId,
                                            delivered: seq<Event>)
    requires ValidRun(Empty(now, lease), actions) && id in Run(Empty(now, lease), actions).jobs
    requires forall e | e in delivered :: e in Run(Empty(now, lease), actions).outbox && e.jobId == id
    ensures var db := Run(Empty(now, lease), actions);
            && (Replay(id, delivered).status.Succeeded? <==> exists e :: e in delivered && IsSuccess(e))
            && (Replay(id, delivered).status.Succeeded? ==> db.jobs[id].status.RowSucceeded?)
            && (db.jobs[id].status.RowSucceeded? ==> exists e :: e in db.outbox && e.jobId == id && IsSuccess(e))
  {
    EmptyGood(now, lease);
    RunGood(Empty(now, lease), actions);
    var db := Run(Empty(now, lease), actions);
    var s := Slice(db, id);
    assert JobGood(db.now, id, s);
    forall e | e in delivered ensures e in s.trace {
      TraceElements(db.outbox, id, e);
    }
    SuccessUnderAnyDelivery(db.now, id, s, delivered);
    if s.row.status.RowSucceeded? {
      SucceededRowHasEvent(db.now, id, s);
      var e :| e in s.trace && IsSuccess(e);
      TraceElements(db.outbox, id, e);
    }
  }

  lemma RunOne(db: Database, actions: seq<Action>, a: Action)
    ensures Run(db, actions + [a]) == Step(Run(db, actions), a)
  {
    assert (actions + [a])[..|actions|] == actions;
  }

  lemma {:induction false} ValidOne(db: Database, actions: seq<Action>, a: Action)
    requires ValidRun(db, actions) && Allowed(Run(db, actions), a)
    ensures ValidRun(db, actions + [a])
  {
    assert (actions + [a])[..|actions|] == actions;
  }

  lemma {:induction false} RunsJoin(db: Database, first: seq<Action>, more: seq<Action>)
    requires ValidRun(db, first) && ValidRun(Run(db, first), more)
    ensures ValidRun(db, first + more) && Run(db, first + more) == Run(Run(db, first), more)
    decreases |more|
  {
    if more == [] {
      assert first + more == first;
    } else {
      var init, last := more[..|more| - 1], more[|more| - 1];
      RunsJoin(db, first, init);
      RunOne(db, first + init, last);
      ValidOne(db, first + init, last);
      assert first + more == (first + init) + [last];
    }
  }

  lemma {:induction false} EventsKept(db: Database, later: seq<Action>, e: Event)
    requires e in db.outbox
    ensures e in Run(db, later).outbox
  {
    if later != [] {
      EventsKept(db, later[..|later| - 1], e);
    }
  }

  lemma RecoverTables(db: Database, id: JobId)
    requires id in db.jobs && Expired(db.now, db.jobs[id])
    ensures var next := Step(db, Act(id, Recover));
            && id in next.jobs && next.outbox == db.outbox && next.attempts == db.attempts
            && next.jobs[id] == RecoverChange(db.now, db.jobs[id]).row
  {
  }

  lemma {:induction false} HeldIsInFlight(db: Database, id: JobId)
    requires Good(db) && id in db.jobs && db.jobs[id].status.Held()
    ensures !Replay(id, Trace(db.outbox, id)).status.Terminal()
    ensures db.jobs[id].attemptNumber <= db.jobs[id].spec.maxAttempts
  {
    var s := Slice(db, id);
    assert JobGood(db.now, id, s);
    AgreementShown(db.now, s, Replay(id, s.trace));
  }

  /** Recovery writes no event: when it exhausts a job the row is final, while the in-order replay, and so
      every projection of it, is not terminal. */
  lemma {:induction false} RecoveryIsSilent(db: Database, id: JobId)
    requires Good(db) && id in db.jobs && Expired(db.now, db.jobs[id])
    ensures var next := Step(db, Act(id, Recover));
            && id in next.jobs && next.outbox == db.outbox && next.attempts == db.attempts
            && (next.jobs[id].status.RowExhausted? <==> db.jobs[id].attemptNumber == db.jobs[id].spec.maxAttempts)
            && !Replay(id, Trace(next.outbox, id)).status.Terminal()
  {
    RecoverTables(db, id);
    HeldIsInFlight(db, id);
  }

  lemma ClaimTables(db: Database, id: JobId, owner: string)
    requires Good(db) && id in db.jobs && Due(db.now, db.jobs[id])
    ensures var next := Step(db, Act(id, Claim(owner)));
            && Good(next) && next.now == db.now && next.lease == db.lease && id in next.jobs
            && next.jobs[id] == ClaimChange(db.now, db.lease, db.nextId, id, db.jobs[id], owner).row
  {
    StepGood(db, Act(id, Claim(owner)));
  }

  /** It does happen: a due job on its last attempt, claimed by a worker that is never heard of again. */
  lemma AbandonedLastAttempt(db: Database, id: JobId, owner: string)
    requires Good(db) && id in db.jobs && Due(db.now, db.jobs[id])
    requires db.jobs[id].attemptNumber + 1 == db.jobs[id].spec.maxAttempts
    ensures var run := [Act(id, Claim(owner)), Tick(db.lease + 1), Act(id, Recover)];
            && ValidRun(db, run) && id in Run(db, run).jobs && Run(db, run).jobs[id].status.RowExhausted?
            && !Replay(id, Trace(Run(db, run).outbox, id)).status.Terminal()
  {
    var a, b, c := Act(id, Claim(owner)), Tick(db.lease + 1), Act(id, Recover);
    var one := Step(db, a);
    var two := Step(one, b);
    ClaimTables(db, id, owner);
    StepGood(one, b);
    RecoveryIsSilent(two, id);
    ThreeSteps(db, a, b, c);
  }

  lemma {:induction false} ThreeSteps(db: Database, a: Action, b: Action, c: Action)
    requires Allowed(db, a) && Allowed(Step(db, a), b) && Allowed(Step(Step(db, a), b), c)
    ensures ValidRun(db, [a, b, c]) && Run(db, [a, b, c]) == Step(Step(Step(db, a), b), c)
  {
    assert [] + [a] == [a] && [a] + [b] == [a, b] && [a, b] + [c] == [a, b, c];
    RunOne(db, [], a);
    ValidOne(db, [], a);
    RunOne(db, [a], b);
    ValidOne(db, [a], b);
    RunOne(db, [a, b], c);
    ValidOne(db, [a, b], c);
  }

  /** A claim some worker was given that the fence now rejects. */
  ghost predicate Dead(db: Database, id: JobId, c: ClaimedJob) {
    id in db.jobs && DeadClaim(db.now, id, Slice(db, id), c)
  }

  lemma DeadAcross(db: Database, next: Database, id: JobId, c: ClaimedJob)
    requires Dead(db, id, c) && id in next.jobs && Slice(next, id) == Slice(db, id) && db.now <= next.now
    ensures Dead(next, id, c)
  {
    LaterDead(db.now, next.now, id, Slice(db, id), c);
  }

  lemma DeadStep(db: Database, a: Action, id: JobId, c: ClaimedJob)
    requires Good(db) && Allowed(db, a) && Dead(db, id, c)
    ensures Dead(Step(db, a), id, c)
  {
    StepSlice(db, a, id);
    StepClock(db, a);
    if a.Act? && a.jobId == id {
      DeadClaimStep(db.now, db.lease, db.nextId, id, Slice(db, id), a.action, c);
    } else {
      DeadAcross(db, Step(db, a), id, c);
    }
  }

  /** A claim that cannot pass the fence now can never pass it again, whatever the later run does. */
  lemma {:induction false} DeadClaimsStayDead(db: Database, later: seq<Action>, id: JobId, c: ClaimedJob)
    requires Good(db) && ValidRun(db, later) && Dead(db, id, c)
    ensures Dead(Run(db, later), id, c)
  {
    if later != [] {
      var init, last := later[..|later| - 1], later[|later| - 1];
      DeadClaimsStayDead(db, init, id, c);
      RunGood(db, init);
      DeadStep(Run(db, init), last, id, c);
    }
  }

  /** The action ends a claim: it completes the attempt or takes it back. */
  predicate EndsClaim(a: JobAction) {
    a.Succeed? || a.Fail? || a.Recover?
  }

  lemma EndedJob(now: Time, lease: nat, nextId: nat, id: JobId, s: JobState, a: JobAction, c: ClaimedJob)
    requires JobInv(now, s) && Permitted(now, id, s, a) && EndsClaim(a) && Genuine(id, s, c)
    requires Transaction(now, lease, nextId, id, s, a).Some?
    ensures DeadClaim(now, id, JobStep(now, lease, nextId, id, s, a), c)
  {
    JobStepGrows(now, lease, nextId, id, s, a);
  }

  /** Once a completion or a recovery takes effect, every claim ever issued on the job is dead, and no later
      run of any workers revives one. */
  lemma {:induction false} EndedClaimsNeverPass(db: Database, id: JobId, a: JobAction, later: seq<Action>,
                                                c: ClaimedJob)
    requires Good(db) && id in db.jobs && Allowed(db, Act(id, a)) && EndsClaim(a)
    requires Transaction(db.now, db.lease, db.nextId, id, Slice(db, id), a).Some?
    requires Genuine(id, Slice(db, id), c)
    requires ValidRun(Step(db, Act(id, a)), later)
    ensures Dead(Run(Step(db, Act(id, a)), later), id, c)
  {
    var next := Step(db, Act(id, a));
    assert JobGood(db.now, id, Slice(db, id));
    StepSlice(db, Act(id, a), id);
    StepClock(db, Act(id, a));
    EndedJob(db.now, db.lease, db.nextId, id, Slice(db, id), a, c);
    StepGood(db, Act(id, a));
    DeadClaimsStayDead(next, later, id, c);
  }

  lemma StepGrows(db: Database, a: Action, id: JobId)
    requires Good(db) && Allowed(db, a) && id in db.jobs
    ensures id in Step(db, a).jobs && Grows(Slice(db, id), Slice(Step(db, a), id))
  {
    StepSlice(db, a, id);
    if a.Act? && a.jobId == id {
      JobStepGrows(db.now, db.lease, db.nextId, id, Slice(db, id), a.action);
    }
  }

  /** Over any later run a job only moves forward: outcomes are never rewritten and a finished job is final. */
  lemma {:induction false} RunGrows(db: Database, later: seq<Action>, id: JobId)
    requires Good(db) && ValidRun(db, later) && id in db.jobs
    ensures id in Run(db, later).jobs && Grows(Slice(db, id), Slice(Run(db, later), id))
  {
    if later != [] {
      var init, last := later[..|later| - 1], later[|later| - 1];
      RunGrows(db, init, id);
      RunGood(db, init);
      StepGrows(Run(db, init), last, id);
      GrowsTransitive(Slice(db, id), Slice(Run(db, init), id), Slice(Run(db, later), id));
    }
  }

  /** The outbox trace is a word of the grammar in which at most the last round is final. */
  ghost predicate InGrammar(s: JobState) {
    exists rounds :: SpelledBy(s, rounds) && OnlyLastFinal(rounds)
  }

  /** After any run each attempt has at most one outcome event, and exactly one once it has an outcome; the
      outbox stays in its grammar; the schema's CHECKs hold; and no two claims on one job both pass. */
  lemma {:induction false} RunIsSafe(now: Time, lease: nat, actions: seq<Action>, id: JobId, c: ClaimedJob,
                                     d: ClaimedJob, n: nat)
    requires ValidRun(Empty(now, lease), actions) && id in Run(Empty(now, lease), actions).jobs
    ensures var db := Run(Empty(now, lease), actions);
            var s := Slice(db, id);
            && OutcomeEvents(s.trace, n) == (if n in s.attempts && s.attempts[n].outcome.Some? then 1 else 0)
            && InGrammar(s)
            && (forall k :: k in s.attempts <==> 1 <= k <= s.row.attemptNumber)
            && SchemaChecks(s.row) && ValidSpec(s.row.spec)
            && (Genuine(id, s, c) && Genuine(id, s, d) && Passes(db.now, s.row, c) && Passes(db.now, s.row, d) ==>
                  c == d)
  {
    EmptyGood(now, lease);
    RunGood(Empty(now, lease), actions);
    var db := Run(Empty(now, lease), actions);
    var s := Slice(db, id);
    assert JobGood(db.now, id, s);
    var rounds :| SpelledBy(s, rounds);
    OnlyLastRoundFinal(s, rounds);
    if Genuine(id, s, c) && Genuine(id, s, d) && Passes(db.now, s.row, c) && Passes(db.now, s.row, d) {
      OneClaimPasses(db.now, id, s, c, d);
    }
  }

  // Progress

  /** The action takes or releases the job's claim, and takes effect. */
  predicate MovesJob(db: Database, a: Action, id: JobId) {
    && a.Act? && a.jobId == id && id in db.jobs && TakesOrReleases(a.action)
    && Transaction(db.now, db.lease, db.nextId, id, Slice(db, id), a.action).Some?
  }

  function Moves(db: Database, actions: seq<Action>, id: JobId): nat {
    if actions == [] then 0
    else
      var init := actions[..|actions| - 1];
      Moves(db, init, id) + (if MovesJob(Run(db, init), actions[|actions| - 1], id) then 1 else 0)
  }

  lemma MoveStep(db: Database, a: Action, id: JobId)
    requires Good(db) && Allowed(db, a) && id in db.jobs
    ensures id in Step(db, a).jobs
    ensures Progress(Step(db, a).jobs[id]) == Progress(db.jobs[id]) + (if MovesJob(db, a, id) then 1 else 0)
  {
    StepSlice(db, a, id);
    if a.Act? && a.jobId == id {
      ProgressStep(db.now, db.lease, db.nextId, id, Slice(db, id), a.action);
    }
  }

  lemma {:induction false} MovesAreProgress(db: Database, actions: seq<Action>, id: JobId)
    requires Good(db) && ValidRun(db, actions) && id in db.jobs
    ensures id in Run(db, actions).jobs
    ensures Moves(db, actions, id) == Progress(Run(db, actions).jobs[id]) - Progress(db.jobs[id])
  {
    if actions != [] {
      var init, last := actions[..|actions| - 1], actions[|actions| - 1];
      MovesAreProgress(db, init, id);
      RunGood(db, init);
      MoveStep(Run(db, init), last, id);
    }
  }

  /** However long a run goes on, a job's claim is taken and released at most 2 * max_attempts times. */
  lemma {:induction false} MovesAreBounded(db: Database, actions: seq<Action>, id: JobId)
    requires Good(db) && ValidRun(db, actions) && id in db.jobs
    ensures Moves(db, actions, id) <= 2 * db.jobs[id].spec.maxAttempts
  {
    MovesAreProgress(db, actions, id);
    RunGrows(db, actions, id);
    RunGood(db, actions);
    var end := Run(db, actions);
    assert JobInv(end.now, Slice(end, id)) && JobInv(db.now, Slice(db, id));
  }

  // Runs driven through `execute`

  /** A worker going through `execute` completes only an attempt it has started. */
  predicate StartsFirst(db: Database, a: Action) {
    a.Act? && (a.action.Succeed? || a.action.Fail?) && a.jobId in db.jobs ==>
      var s := Slice(db, a.jobId);
      a.action.claim.attemptNumber in s.attempts ==> s.attempts[a.action.claim.attemptNumber].startedAt.Some?
  }

  predicate Driven(db: Database, actions: seq<Action>) {
    actions == [] ||
    (Driven(db, actions[..|actions| - 1]) && StartsFirst(Run(db, actions[..|actions| - 1]), actions[|actions| - 1]))
  }

  lemma DrivenStep(db: Database, a: Action, id: JobId)
    requires Good(db) && Allowed(db, a) && StartsFirst(db, a) && id in db.jobs
    requires !CompletedUnstarted(Slice(db, id).attempts)
    ensures id in Step(db, a).jobs && !CompletedUnstarted(Slice(Step(db, a), id).attempts)
  {
    StepSlice(db, a, id);
    if a.Act? && a.jobId == id {
      DrivenJobStep(db.now, db.lease, db.nextId, id, Slice(db, id), a.action);
    }
  }

  lemma DrivenJobStep(now: Time, lease: nat, nextId: nat, id: JobId, s: JobState, a: JobAction)
    requires JobInv(now, s) && Permitted(now, id, s, a) && !CompletedUnstarted(s.attempts)
    requires (a.Succeed? || a.Fail?) && a.claim.attemptNumber in s.attempts ==>
               s.attempts[a.claim.attemptNumber].startedAt.Some?
    ensures !CompletedUnstarted(JobStep(now, lease, nextId, id, s, a).attempts)
  {
    var change := Transaction(now, lease, nextId, id, s, a);
    if change.Some? && change.value.attempt.Some? {
      UnstartedUpdate(s.attempts, change.value.row.attemptNumber, change.value.attempt.value);
    }
  }

  /** In a run driven through `execute` the in-order replay never reports an incomplete lifecycle. */
  lemma {:induction false} DrivenRunsAreComplete(now: Time, lease: nat, actions: seq<Action>, id: JobId)
    requires ValidRun(Empty(now, lease), actions) && Driven(Empty(now, lease), actions)
    requires id in Run(Empty(now, lease), actions).jobs
    ensures var s := Slice(Run(Empty(now, lease), actions), id);
            !CompletedUnstarted(s.attempts) && !Replay(id, s.trace).flags.incomplete
            && Replay(id, s.trace).findings == map[]
  {
    var init, last := actions[..|actions| - 1], actions[|actions| - 1];
    var mid := Run(Empty(now, lease), init);
    EmptyGood(now, lease);
    RunGood(Empty(now, lease), init);
    if id in mid.jobs {
      DrivenRunsAreComplete(now, lease, init, id);
      DrivenStep(mid, last, id);
    } else {
      SubmitSlice(mid, last.value);
    }
    ReplayMatchesTables(now, lease, actions, id);
  }
}

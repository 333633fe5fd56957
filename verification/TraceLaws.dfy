/** What a job's outbox events say about its rows, in any order and with any of them missing. */
module TraceLaws {
  import opened Model
  import opened Reducer
  import opened StatusLaws
  import opened Scheduler
  import opened SchedulerLaws

  // Every event is explained by the rows, and every outcome by exactly one event

  predicate DrawnFrom(id: JobId, spec: JobSpec, e: Event) {
    && e.jobId == id && e.ingestionTime == e.eventTime
    && e.correlationId == spec.correlationId && e.jobType == spec.jobType
    && e.scheduledAt == Some(spec.scheduledAt) && e.maxAttempts == spec.maxAttempts
    && e.schedulerReference.None? && e.pollTime.None?
  }

  predicate FactHolds(s: JobState, e: Event) {
    var n := e.attemptNumber;
    match e.eventType
    case JobCreated => n == 0 && e.eventTime == s.row.createdAt
    case SubmissionRequested => n == 0 && e.eventTime == s.row.createdAt
    case ItemRetrieved => n in s.attempts && e.eventTime == s.attempts[n].claimedAt
    case ExecutionStarted =>
      && n in s.attempts && s.attempts[n].startedAt.Some?
      && s.attempts[n].claimedAt <= e.eventTime <= s.attempts[n].startedAt.value
    case ExecutionSucceeded =>
      && n in s.attempts && s.attempts[n].outcome == Some(OutcomeSucceeded)
      && s.attempts[n].completedAt == Some(e.eventTime)
    case ExecutionFailed =>
      && n in s.attempts && s.attempts[n].outcome == Some(OutcomeFailed)
      && s.attempts[n].completedAt == Some(e.eventTime)
      && s.attempts[n].retryable == e.retryable && s.attempts[n].errorCode == e.errorCode
    case RetryRequested => n in s.attempts && RetriedFailure(s.attempts[n])
    case RetryAcknowledged =>
      n in s.attempts && RetriedFailure(s.attempts[n]) && s.attempts[n].nextRetryAt == e.nextRetryAt
    case RetriesExhausted =>
      n in s.attempts && n == s.row.attemptNumber && RetriedFailure(s.attempts[n]) && s.row.status.RowExhausted?
    case _ => false
  }

  ghost predicate Explained(id: JobId, s: JobState) {
    forall e | e in s.trace :: DrawnFrom(id, s.row.spec, e) && FactHolds(s, e)
  }

  predicate IsOutcome(e: Event, n: nat) {
    (e.eventType.ExecutionSucceeded? || e.eventType.ExecutionFailed?) && e.attemptNumber == n
  }

  function OutcomeEvents(es: seq<Event>, n: nat): nat {
    if es == [] then 0 else OutcomeEvents(es[..|es| - 1], n) + (if IsOutcome(es[|es| - 1], n) then 1 else 0)
  }

  /** Each attempt has one SUCCEEDED or FAILED event when it has an outcome, and none otherwise. */
  ghost predicate OutcomesOnce(s: JobState) {
    forall n: nat ::
      OutcomeEvents(s.trace, n) == if n in s.attempts && s.attempts[n].outcome.Some? then 1 else 0
  }

  lemma {:induction false} OutcomeEventsAppend(es: seq<Event>, fs: seq<Event>, n: nat)
    ensures OutcomeEvents(es + fs, n) == OutcomeEvents(es, n) + OutcomeEvents(fs, n)
  {
    if fs == [] {
      assert es + fs == es;
    } else {
      assert (es + fs)[..|es + fs| - 1] == es + fs[..|fs| - 1];
      OutcomeEventsAppend(es, fs[..|fs| - 1], n);
    }
  }

  function One(e: Event, n: nat): nat {
    if IsOutcome(e, n) then 1 else 0
  }

  lemma {:induction false} OutcomeEventsShort(es: seq<Event>, n: nat)
    requires |es| <= 3
    ensures OutcomeEvents(es, n) == (if |es| > 0 then One(es[0], n) else 0)
                                    + (if |es| > 1 then One(es[1], n) else 0)
                                    + (if |es| > 2 then One(es[2], n) else 0)
  {
    if es != [] {
      OutcomeEventsShort(es[..|es| - 1], n);
    }
  }

  lemma FactKept(s: JobState, t: JobState, now: Time, e: Event)
    requires JobInv(now, s) && JobInv(now, t) && Grows(s, t) && FactHolds(s, e)
    requires forall n | n in s.attempts && s.attempts[n].startedAt.Some? ::
               t.attempts[n].startedAt.Some? && s.attempts[n].startedAt.value <= t.attempts[n].startedAt.value
    ensures FactHolds(t, e)
  {
  }

  lemma StepExplained(now: Time, lease: nat, nextId: nat, id: JobId, s: JobState, a: JobAction)
    requires JobInv(now, s) && Explained(id, s) && Permitted(now, id, s, a)
    ensures Explained(id, JobStep(now, lease, nextId, id, s, a))
  {
    var t := JobStep(now, lease, nextId, id, s, a);
    var change := Transaction(now, lease, nextId, id, s, a);
    if change.Some? {
      JobStepInv(now, lease, nextId, id, s, a);
      JobStepGrows(now, lease, nextId, id, s, a);
      StartsAdvance(now, lease, nextId, id, s, a);
      NewFacts(now, lease, nextId, id, s, a);
      forall e | e in t.trace ensures DrawnFrom(id, t.row.spec, e) && FactHolds(t, e) {
        if e in s.trace {
          FactKept(s, t, now, e);
        } else {
          assert e in change.value.events;
        }
      }
    }
  }

  lemma StartsAdvance(now: Time, lease: nat, nextId: nat, id: JobId, s: JobState, a: JobAction)
    requires JobInv(now, s) && Permitted(now, id, s, a)
    ensures var t := JobStep(now, lease, nextId, id, s, a);
            forall n | n in s.attempts && s.attempts[n].startedAt.Some? ::
              && n in t.attempts && t.attempts[n].startedAt.Some?
              && s.attempts[n].startedAt.value <= t.attempts[n].startedAt.value
  {
  }

  /** The rows explain every event the transaction adds. */
  ghost predicate NewFact(now: Time, lease: nat, nextId: nat, id: JobId, s: JobState, a: JobAction) {
    var change := Transaction(now, lease, nextId, id, s, a);
    var t := JobStep(now, lease, nextId, id, s, a);
    change.Some? ==> forall e | e in change.value.events :: DrawnFrom(id, t.row.spec, e) && FactHolds(t, e)
  }

  lemma ClaimFacts(now: Time, lease: nat, nextId: nat, id: JobId, s: JobState, owner: string)
    requires JobInv(now, s)
    ensures NewFact(now, lease, nextId, id, s, Claim(owner))
  {
  }

  lemma StartFacts(now: Time, lease: nat, nextId: nat, id: JobId, s: JobState, c: ClaimedJob)
    requires JobInv(now, s) && Permitted(now, id, s, JobAction.Start(c))
    ensures NewFact(now, lease, nextId, id, s, JobAction.Start(c))
  {
  }

  lemma SucceedFacts(now: Time, lease: nat, nextId: nat, id: JobId, s: JobState, c: ClaimedJob)
    requires JobInv(now, s) && Permitted(now, id, s, JobAction.Succeed(c))
    ensures NewFact(now, lease, nextId, id, s, JobAction.Succeed(c))
  {
  }

  lemma FailFacts(now: Time, lease: nat, nextId: nat, id: JobId, s: JobState, c: ClaimedJob, failure: HandlerFailure,
                asked: Time)
    requires JobInv(now, s) && Permitted(now, id, s, JobAction.Fail(c, failure, asked))
    ensures NewFact(now, lease, nextId, id, s, JobAction.Fail(c, failure, asked))
  {
  }

  lemma NewFacts(now: Time, lease: nat, nextId: nat, id: JobId, s: JobState, a: JobAction)
    requires JobInv(now, s) && Permitted(now, id, s, a)
    ensures NewFact(now, lease, nextId, id, s, a)
  {
    match a {
      case Claim(owner) => ClaimFacts(now, lease, nextId, id, s, owner);
      case Start(c) => StartFacts(now, lease, nextId, id, s, c);
      case Heartbeat(_) =>
      case Succeed(c) => SucceedFacts(now, lease, nextId, id, s, c);
      case Fail(c, failure, asked) => FailFacts(now, lease, nextId, id, s, c, failure, asked);
      case Recover =>
    }
  }

  lemma StepOutcomes(now: Time, lease: nat, nextId: nat, id: JobId, s: JobState, a: JobAction)
    requires JobInv(now, s) && OutcomesOnce(s) && Permitted(now, id, s, a)
    ensures OutcomesOnce(JobStep(now, lease, nextId, id, s, a))
  {
    var t := JobStep(now, lease, nextId, id, s, a);
    var change := Transaction(now, lease, nextId, id, s, a);
    if change.Some? {
      forall n: nat
        ensures OutcomeEvents(t.trace, n) == if n in t.attempts && t.attempts[n].outcome.Some? then 1 else 0
      {
        OutcomeEventsAppend(s.trace, change.value.events, n);
        StepCounts(now, lease, nextId, id, s, a, n);
      }
    }
  }

  lemma {:induction false} StepCounts(now: Time, lease: nat, nextId: nat, id: JobId, s: JobState, a: JobAction, n: nat)
    requires JobInv(now, s) && Permitted(now, id, s, a) && Transaction(now, lease, nextId, id, s, a).Some?
    ensures var t := JobStep(now, lease, nextId, id, s, a);
            OutcomeEvents(Transaction(now, lease, nextId, id, s, a).value.events, n)
            + (if n in s.attempts && s.attempts[n].outcome.Some? then 1 else 0)
            == if n in t.attempts && t.attempts[n].outcome.Some? then 1 else 0
  {
    OutcomeEventsShort(Transaction(now, lease, nextId, id, s, a).value.events, n);
    match a {
      case Claim(_) =>
      case Start(c) =>
      case Heartbeat(c) =>
      case Succeed(c) =>
      case Fail(c, failure, asked) =>
      case Recover =>
    }
  }

  lemma SubmittedTrace(now: Time, nextId: nat, value: JobSubmission)
    ensures var s := Submitted(now, nextId, value); Explained(value.jobId, s) && OutcomesOnce(s)
  {
    var s := Submitted(now, nextId, value);
    forall n: nat ensures OutcomeEvents(s.trace, n) == 0 {
      OutcomeEventsShort(s.trace, n);
    }
  }

  // Replaying part of the events, in any order

  predicate IsSuccess(e: Event) {
    e.eventType.ExecutionSucceeded?
  }

  /** An event of a job that succeeded at attempt `n`, or may still succeed there. */
  predicate Harmless(e: Event, n: nat) {
    match e.eventType
    case JobCreated => true
    case SubmissionRequested => true
    case ItemRetrieved => true
    case ExecutionStarted => true
    case ExecutionSucceeded => AttemptOf(e) == n
    case ExecutionFailed => AttemptOf(e) != n && e.retryable == Some(true)
    case RetryRequested => true
    case RetryAcknowledged => true
    case _ => false
  }

  predicate Unharmed(j: JobVisibility, n: nat) {
    && !j.status.Failed? && !j.status.Exhausted? && !j.status.Cancelled?
    && (n in j.attempts ==> !j.attempts[n].status.AttemptFailed?)
  }

  lemma HarmlessHandle(j: JobVisibility, e: Event, n: nat)
    requires Unharmed(j, n) && Harmless(e, n)
    ensures Unharmed(Handle(j, e).job, n)
    ensures IsSuccess(e) ==> Handle(j, e).job.status.Succeeded?
  {
  }

  lemma HarmlessStep(j: JobVisibility, e: Event, n: nat)
    requires Unharmed(j, n) && Harmless(e, n) && Audited(j)
    ensures Unharmed(Reduce(j, e), n)
    ensures IsSuccess(e) || j.status.Succeeded? ==> Reduce(j, e).status.Succeeded?
  {
    HarmlessHandle(j.(description := Describe(j.description, e)), e, n);
    ReduceAudited(j, e);
  }

  lemma {:induction false} HarmlessReplay(id: JobId, es: seq<Event>, n: nat)
    requires forall e | e in es :: Harmless(e, n)
    ensures Unharmed(Replay(id, es), n)
    ensures (exists e :: e in es && IsSuccess(e)) ==> Replay(id, es).status.Succeeded?
  {
    if es != [] {
      var init, last := es[..|es| - 1], es[|es| - 1];
      HarmlessReplay(id, init, n);
      ReplayAudited(id, init);
      HarmlessStep(Replay(id, init), last, n);
      ReplayOne(id, init, last);
      assert init + [last] == es;
      assert forall x :: x in es <==> x in init || x == last;
    }
  }

  lemma SuccessNeedsEvent(j: JobVisibility, e: Event)
    requires !j.status.Succeeded? && !IsSuccess(e)
    ensures !Reduce(j, e).status.Succeeded?
  {
  }

  lemma {:induction false} SuccessComesFromEvent(id: JobId, es: seq<Event>)
    requires Replay(id, es).status.Succeeded?
    ensures exists e :: e in es && IsSuccess(e)
  {
    var init, last := es[..|es| - 1], es[|es| - 1];
    assert init + [last] == es;
    ReplayOne(id, init, last);
    if !IsSuccess(last) {
      if Replay(id, init).status.Succeeded? {
        SuccessComesFromEvent(id, init);
      } else {
        SuccessNeedsEvent(Replay(id, init), last);
      }
    }
  }

  /** Whatever subset of a job's outbox is delivered, in whatever order and however often, the replay
      shows SUCCEEDED exactly when the success event is among the delivered ones; and then the scheduler's
      own row is SUCCEEDED. */
  lemma SuccessUnderAnyDelivery(now: Time, id: JobId, s: JobState, es: seq<Event>)
    requires JobInv(now, s) && Explained(id, s)
    requires forall e | e in es :: e in s.trace
    ensures Replay(id, es).status.Succeeded? <==> exists e :: e in es && IsSuccess(e)
    ensures Replay(id, es).status.Succeeded? ==> s.row.status.RowSucceeded?
  {
    if Replay(id, es).status.Succeeded? {
      SuccessComesFromEvent(id, es);
    }
    if w :| w in es && IsSuccess(w) {
      assert FactHolds(s, w);
      assert s.row.status.RowSucceeded? && w.attemptNumber == s.row.attemptNumber;
      forall e | e in es ensures Harmless(e, w.attemptNumber) {
        assert FactHolds(s, e);
      }
      HarmlessReplay(id, es, w.attemptNumber);
    }
  }

  /** A job that succeeded has its success event in the outbox. */
  lemma {:induction false} OutcomeEventExists(es: seq<Event>, n: nat)
    requires OutcomeEvents(es, n) > 0
    ensures exists e :: e in es && IsOutcome(e, n)
  {
    if !IsOutcome(es[|es| - 1], n) {
      OutcomeEventExists(es[..|es| - 1], n);
      var w :| w in es[..|es| - 1] && IsOutcome(w, n);
      assert w in es;
    }
  }

  lemma SucceededRowHasEvent(now: Time, id: JobId, s: JobState)
    requires JobInv(now, s) && Explained(id, s) && OutcomesOnce(s) && s.row.status.RowSucceeded?
    ensures exists e :: e in s.trace && IsSuccess(e)
  {
    assert s.row.attemptNumber in s.attempts;
    OutcomeEventExists(s.trace, s.row.attemptNumber);
    var w :| w in s.trace && IsOutcome(w, s.row.attemptNumber);
    assert FactHolds(s, w);
  }
}

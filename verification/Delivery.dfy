/** Which outcome a job shows when part of its outbox arrives, in any order.

SUCCEEDED survives any delivery (TraceLaws); FAILED and RETRIES_EXHAUSTED survive exactly the orders
described here.
*/
module Delivery {
  import opened Model
  import opened Reducer
  import opened StatusLaws
  import opened Transitions
  import opened Scheduler
  import opened SchedulerLaws
  import opened TraceLaws
  import opened Simulation
  import opened Runs

  // RETRIES_EXHAUSTED

  predicate IsStart(e: Event) {
    e.eventType.ExecutionStarted?
  }

  predicate IsExhaustion(e: Event) {
    e.eventType.RetriesExhausted?
  }

  /** An exhaustion arrives and no start arrives after it. */
  predicate ShowsExhaustion(es: seq<Event>) {
    exists i | 0 <= i < |es| :: IsExhaustion(es[i]) && NoStartAfter(es, i)
  }

  predicate NoStartAfter(es: seq<Event>, i: int) {
    forall k | 0 <= i < k < |es| :: !IsStart(es[k])
  }

  lemma ExhaustionStep(j: JobVisibility, e: Event)
    requires SuccessAgrees(j) && !j.status.Succeeded?
    ensures Reduce(j, e).status.Exhausted? <==> IsExhaustion(e) || (j.status.Exhausted? && !IsStart(e))
  {
    match e.eventType {
      case ItemRetrieved =>
      case ExecutionStarted =>
      case ExecutionSucceeded =>
      case ExecutionFailed =>
      case _ =>
    }
  }

  lemma ExhaustionShownNext(es: seq<Event>, e: Event)
    ensures ShowsExhaustion(es + [e]) <==> IsExhaustion(e) || (ShowsExhaustion(es) && !IsStart(e))
  {
    var all := es + [e];
    if IsExhaustion(e) {
      assert IsExhaustion(all[|es|]) && NoStartAfter(all, |es|);
    }
    if i :| 0 <= i < |es| && IsExhaustion(es[i]) && NoStartAfter(es, i) && !IsStart(e) {
      assert IsExhaustion(all[i]) && NoStartAfter(all, i);
    }
    if i :| 0 <= i < |all| && IsExhaustion(all[i]) && NoStartAfter(all, i) && !IsExhaustion(e) {
      assert !IsStart(all[|es|]);
      assert forall k | i < k < |es| :: es[k] == all[k];
      assert IsExhaustion(es[i]) && NoStartAfter(es, i);
    }
  }

  /** Over any events without a success, the replay shows RETRIES_EXHAUSTED exactly when the last of the
      exhaustions and starts is an exhaustion. */
  lemma {:induction false} ExhaustedExactly(id: JobId, es: seq<Event>)
    requires forall e | e in es :: !IsSuccess(e)
    ensures Replay(id, es).status.Exhausted? <==> ShowsExhaustion(es)
  {
    if es != [] {
      var init, last := es[..|es| - 1], es[|es| - 1];
      assert init + [last] == es;
      ExhaustedExactly(id, init);
      ReplayAudited(id, init);
      if Replay(id, init).status.Succeeded? {
        SuccessComesFromEvent(id, init);
      }
      ExhaustionStep(Replay(id, init), last);
      ExhaustionShownNext(init, last);
      ReplayOne(id, init, last);
    }
  }

  // FAILED

  predicate IsFailure(e: Event) {
    e.eventType.ExecutionFailed?
  }

  predicate IsFinalFailure(e: Event) {
    IsFailure(e) && e.retryable != Some(true)
  }

  /** Of the starts and failures of attempt `n`, a failure came last. */
  predicate EndsFailed(es: seq<Event>, n: nat) {
    if es == [] then false
    else
      var e := es[|es| - 1];
      if (IsStart(e) || IsFailure(e)) && AttemptOf(e) == n then IsFailure(e) else EndsFailed(es[..|es| - 1], n)
  }

  /** No start after position `i` reopens the job: each is of an attempt already failed by then. */
  predicate StaysFailed(es: seq<Event>, i: int) {
    forall k | 0 <= i < k < |es| && IsStart(es[k]) :: EndsFailed(es[..i + 1], AttemptOf(es[k]))
  }

  /** A final failure arrives and is not reopened. */
  predicate ShowsFailure(es: seq<Event>) {
    exists i | 0 <= i < |es| :: IsFinalFailure(es[i]) && StaysFailed(es, i)
  }

  /** The kinds of event a job emits that neither succeeds nor runs out of attempts. */
  predicate FailingKind(e: Event) {
    match e.eventType
    case JobCreated => true
    case SubmissionRequested => true
    case ItemRetrieved => true
    case ExecutionStarted => true
    case ExecutionFailed => true
    case RetryRequested => true
    case RetryAcknowledged => true
    case _ => false
  }

  /** A final failure is the only failure of its attempt, and arrives once. */
  predicate FinalOnce(es: seq<Event>) {
    forall i, k | 0 <= i < |es| && 0 <= k < |es| && IsFinalFailure(es[i]) && IsFailure(es[k])
                  && AttemptOf(es[i]) == AttemptOf(es[k]) :: i == k
  }

  predicate OneFinal(es: seq<Event>) {
    forall i, k | 0 <= i < |es| && 0 <= k < |es| && IsFinalFailure(es[i]) && IsFinalFailure(es[k]) :: i == k
  }

  predicate NoSuccess(j: JobVisibility) {
    forall n | n in j.attempts :: !j.attempts[n].status.AttemptSucceeded?
  }

  /** While the job is not terminal, each attempt shows the last of its starts and failures. */
  lemma OpenStep(j: JobVisibility, e: Event, n: nat)
    requires !j.status.Terminal() && NoSuccess(j) && FailingKind(e) && !IsFinalFailure(e)
    ensures !Reduce(j, e).status.Terminal() && NoSuccess(Reduce(j, e))
    ensures FailedAt(Reduce(j, e), n) <==>
            if (IsStart(e) || IsFailure(e)) && AttemptOf(e) == n then IsFailure(e) else FailedAt(j, n)
  {
    match e.eventType {
      case ItemRetrieved =>
      case ExecutionStarted =>
      case ExecutionFailed =>
      case _ =>
    }
  }

  lemma FinalStep(j: JobVisibility, e: Event, n: nat)
    requires !j.status.Terminal() && NoSuccess(j) && IsFinalFailure(e) && !FailedAt(j, AttemptOf(e))
    ensures Reduce(j, e).status.Failed? && NoSuccess(Reduce(j, e))
    ensures FailedAt(Reduce(j, e), n) <==> n == AttemptOf(e) || FailedAt(j, n)
  {
  }

  /** A failed job is reopened only by a start of an attempt that has not failed. */
  lemma FailedStep(j: JobVisibility, e: Event, n: nat)
    requires j.status.Failed? && NoSuccess(j) && FailingKind(e) && !IsFinalFailure(e)
    ensures NoSuccess(Reduce(j, e))
    ensures if IsStart(e) && !FailedAt(j, AttemptOf(e)) then !Reduce(j, e).status.Terminal()
            else Reduce(j, e).status.Failed? && (FailedAt(Reduce(j, e), n) <==> FailedAt(j, n))
  {
    match e.eventType {
      case ItemRetrieved =>
      case ExecutionStarted =>
      case ExecutionFailed =>
      case _ =>
    }
  }

  predicate AllFailing(es: seq<Event>) {
    forall e | e in es :: FailingKind(e)
  }

  /** Before a final failure arrives. */
  ghost predicate OpenPhase(j: JobVisibility, es: seq<Event>) {
    !j.status.Terminal() && NoSuccess(j) && forall n: nat :: FailedAt(j, n) <==> EndsFailed(es, n)
  }

  lemma {:induction false} EndsFailedNext(es: seq<Event>, e: Event, n: nat)
    ensures EndsFailed(es + [e], n) <==>
            if (IsStart(e) || IsFailure(e)) && AttemptOf(e) == n then IsFailure(e) else EndsFailed(es, n)
  {
    assert (es + [e])[..|es|] == es;
  }

  lemma {:induction false} EndsFailedNeedsFailure(es: seq<Event>, n: nat)
    requires forall e | e in es :: !(IsFailure(e) && AttemptOf(e) == n)
    ensures !EndsFailed(es, n)
  {
    if es != [] {
      EndsFailedNeedsFailure(es[..|es| - 1], n);
      assert es[..|es| - 1] + [es[|es| - 1]] == es;
    }
  }

  lemma {:induction false} OpenLaw(id: JobId, es: seq<Event>)
    requires AllFailing(es) && forall e | e in es :: !IsFinalFailure(e)
    ensures OpenPhase(Replay(id, es), es)
  {
    if es != [] {
      var init, last := es[..|es| - 1], es[|es| - 1];
      assert init + [last] == es;
      OpenLaw(id, init);
      ReplayOne(id, init, last);
      forall n: nat
        ensures !Replay(id, es).status.Terminal() && NoSuccess(Replay(id, es))
        ensures FailedAt(Replay(id, es), n) <==> EndsFailed(es, n)
      {
        OpenStep(Replay(id, init), last, n);
        EndsFailedNext(init, last, n);
      }
      OpenStep(Replay(id, init), last, 0);
    }
  }

  /** Once the final failure has arrived at position `i`. */
  ghost predicate FailedPhase(j: JobVisibility, es: seq<Event>, i: nat)
    requires i < |es|
  {
    && NoSuccess(j)
    && (if StaysFailed(es, i)
        then j.status.Failed? && forall n: nat :: FailedAt(j, n) <==> EndsFailed(es[..i + 1], n)
        else !j.status.Terminal())
  }

  lemma FinalArrives(id: JobId, init: seq<Event>, last: Event)
    requires OpenPhase(Replay(id, init), init) && IsFinalFailure(last)
    requires forall e | e in init :: !(IsFailure(e) && AttemptOf(e) == AttemptOf(last))
    ensures FailedPhase(Replay(id, init + [last]), init + [last], |init|)
  {
    var es := init + [last];
    EndsFailedNeedsFailure(init, AttemptOf(last));
    ReplayOne(id, init, last);
    FinalStep(Replay(id, init), last, 0);
    assert es[..|init| + 1] == es;
    forall n: nat ensures FailedAt(Replay(id, es), n) <==> EndsFailed(es, n) {
      FinalStep(Replay(id, init), last, n);
      EndsFailedNext(init, last, n);
    }
  }

  lemma StaysFailedNext(init: seq<Event>, last: Event, i: nat)
    requires i < |init|
    ensures StaysFailed(init + [last], i) <==>
            StaysFailed(init, i) && (IsStart(last) ==> EndsFailed(init[..i + 1], AttemptOf(last)))
  {
    var es := init + [last];
    assert es[..i + 1] == init[..i + 1];
    if StaysFailed(es, i) {
      assert forall k | i < k < |init| :: es[k] == init[k];
      assert es[|init|] == last;
    }
  }

  lemma AfterFinal(id: JobId, init: seq<Event>, last: Event, i: nat)
    requires i < |init| && FailedPhase(Replay(id, init), init, i) && FailingKind(last) && !IsFinalFailure(last)
    ensures FailedPhase(Replay(id, init + [last]), init + [last], i)
  {
    var es, j := init + [last], Replay(id, init);
    StaysFailedNext(init, last, i);
    ReplayOne(id, init, last);
    assert es[..i + 1] == init[..i + 1];
    if StaysFailed(init, i) {
      FailedStep(j, last, 0);
      forall n: nat | StaysFailed(es, i) ensures FailedAt(Replay(id, es), n) <==> EndsFailed(es[..i + 1], n) {
        FailedStep(j, last, n);
      }
    } else {
      OpenStep(j, last, 0);
    }
  }

  lemma {:induction false} FailedLaw(id: JobId, es: seq<Event>, i: nat)
    requires AllFailing(es) && FinalOnce(es) && OneFinal(es) && i < |es| && IsFinalFailure(es[i])
    ensures FailedPhase(Replay(id, es), es, i)
  {
    var init, last := es[..|es| - 1], es[|es| - 1];
    assert init + [last] == es;
    if i == |init| {
      forall e | e in init ensures !IsFinalFailure(e) && !(IsFailure(e) && AttemptOf(e) == AttemptOf(last)) {
        var k :| 0 <= k < |init| && init[k] == e;
        assert es[k] == e;
      }
      OpenLaw(id, init);
      FinalArrives(id, init, last);
    } else {
      assert es[|init|] == last;
      FailedLaw(id, init, i);
      AfterFinal(id, init, last, i);
    }
  }

  /** The replay shows FAILED exactly when a final failure arrives and no later start is of an attempt that
      had not failed by then. */
  lemma FailedExactly(id: JobId, es: seq<Event>)
    requires AllFailing(es) && FinalOnce(es) && OneFinal(es)
    ensures Replay(id, es).status.Failed? <==> ShowsFailure(es)
  {
    if i :| 0 <= i < |es| && IsFinalFailure(es[i]) {
      FailedLaw(id, es, i);
      assert StaysFailed(es, i) ==> ShowsFailure(es);
    } else {
      OpenLaw(id, es);
    }
  }

  // Terminal statuses come from their events

  predicate CanFail(e: Event) {
    IsFinalFailure(e) || e.eventType.SubmissionFailed? || e.eventType.RetryRejected?
  }

  lemma StatusSource(j: JobVisibility, e: Event)
    ensures Reduce(j, e).status.Failed? ==> j.status.Failed? || CanFail(e)
    ensures Reduce(j, e).status.Exhausted? ==> j.status.Exhausted? || IsExhaustion(e)
    ensures Reduce(j, e).status.Cancelled? ==> j.status.Cancelled? || e.eventType.JobCancelled?
  {
    match e.eventType {
      case ItemRetrieved =>
      case ExecutionStarted =>
      case ExecutionSucceeded =>
      case ExecutionFailed =>
      case _ =>
    }
  }

  lemma {:induction false} StatusesComeFromEvents(id: JobId, es: seq<Event>)
    ensures Replay(id, es).status.Failed? ==> exists e :: e in es && CanFail(e)
    ensures Replay(id, es).status.Exhausted? ==> exists e :: e in es && IsExhaustion(e)
    ensures Replay(id, es).status.Cancelled? ==> exists e :: e in es && e.eventType.JobCancelled?
  {
    if es != [] {
      var init, last := es[..|es| - 1], es[|es| - 1];
      assert init + [last] == es;
      StatusesComeFromEvents(id, init);
      StatusSource(Replay(id, init), last);
      ReplayOne(id, init, last);
      assert last in es && forall e | e in init :: e in es;
    }
  }

  // The scheduler's own events

  lemma {:induction false} SameOutcomeEvent(es: seq<Event>, n: nat, e: Event, f: Event)
    requires e in es && f in es && IsOutcome(e, n) && IsOutcome(f, n) && OutcomeEvents(es, n) <= 1
    ensures e == f
  {
    var init, last := es[..|es| - 1], es[|es| - 1];
    assert init + [last] == es;
    if e != f {
      var early := if e in init then e else f;
      if e in init && f in init {
        SameOutcomeEvent(init, n, e, f);
      } else {
        OutcomeCounted(init, n, early);
      }
    }
  }

  lemma {:induction false} OutcomeCounted(es: seq<Event>, n: nat, e: Event)
    requires e in es && IsOutcome(e, n)
    ensures OutcomeEvents(es, n) > 0
  {
    var init, last := es[..|es| - 1], es[|es| - 1];
    assert init + [last] == es;
    if e != last {
      OutcomeCounted(init, n, e);
    }
  }

  /** A final failure in the outbox is the newest attempt's, and the row is FAILED. */
  lemma FinalFailureFacts(now: Time, id: JobId, s: JobState, e: Event)
    requires JobInv(now, s) && Explained(id, s) && e in s.trace && IsFinalFailure(e)
    ensures s.row.status.RowFailed? && e.attemptNumber == s.row.attemptNumber && Closed(s)
  {
    assert FactHolds(s, e);
  }

  lemma FailureAttempt(now: Time, id: JobId, s: JobState, e: Event)
    requires JobInv(now, s) && Explained(id, s) && e in s.trace && IsFailure(e)
    ensures e.attemptNumber >= 1 && AttemptOf(e) == e.attemptNumber
  {
    assert FactHolds(s, e);
  }

  lemma OutboxFinals(now: Time, id: JobId, s: JobState, es: seq<Event>)
    requires JobInv(now, s) && Explained(id, s) && OutcomesOnce(s) && DistinctIds(es)
    requires forall e | e in es :: e in s.trace
    ensures FinalOnce(es) && OneFinal(es)
  {
    forall i, k | 0 <= i < |es| && 0 <= k < |es| && IsFinalFailure(es[i]) && IsFailure(es[k])
                  && (AttemptOf(es[i]) == AttemptOf(es[k]) || IsFinalFailure(es[k]))
      ensures i == k
    {
      var e, f := es[i], es[k];
      assert e in s.trace && f in s.trace;
      FinalFailureFacts(now, id, s, e);
      FailureAttempt(now, id, s, e);
      FailureAttempt(now, id, s, f);
      if IsFinalFailure(f) {
        FinalFailureFacts(now, id, s, f);
      }
      SameOutcomeEvent(s.trace, e.attemptNumber, e, f);
    }
  }

  lemma OutboxKind(now: Time, id: JobId, s: JobState, e: Event)
    requires JobInv(now, s) && Explained(id, s) && e in s.trace
    ensures FailingKind(e) || IsSuccess(e) || IsExhaustion(e)
    ensures IsSuccess(e) ==> s.row.status.RowSucceeded? && Closed(s)
    ensures IsExhaustion(e) ==> s.row.status.RowExhausted? && Closed(s)
  {
    assert FactHolds(s, e);
  }

  /** What a delivery shows of a job: each outcome exactly under its condition, and never one that is not
      the row's own or that recovery alone brought about. */
  ghost predicate ShowsOutcome(s: JobState, j: JobVisibility, es: seq<Event>) {
    && (j.status.Succeeded? <==> exists e :: e in es && IsSuccess(e))
    && (j.status.Exhausted? <==> ShowsExhaustion(es))
    && (j.status.Failed? <==> ShowsFailure(es))
    && (j.status.Terminal() ==> FinalStatus(s.row.status) == Some(j.status) && Closed(s))
  }

  lemma FailedDelivery(now: Time, id: JobId, s: JobState, es: seq<Event>)
    requires JobInv(now, s) && Explained(id, s) && OutcomesOnce(s) && DistinctIds(es)
    requires forall e | e in es :: e in s.trace
    ensures Replay(id, es).status.Failed? <==> ShowsFailure(es)
    ensures Replay(id, es).status.Failed? ==> s.row.status.RowFailed? && Closed(s)
  {
    forall e | e in es ensures FailingKind(e) || IsSuccess(e) || IsExhaustion(e) {
      OutboxKind(now, id, s, e);
    }
    if x :| x in es && IsFinalFailure(x) {
      FinalFailureFacts(now, id, s, x);
      forall e | e in es ensures FailingKind(e) {
        OutboxKind(now, id, s, e);
      }
      OutboxFinals(now, id, s, es);
      FailedExactly(id, es);
    } else {
      StatusesComeFromEvents(id, es);
    }
  }

  lemma ExhaustedDelivery(now: Time, id: JobId, s: JobState, es: seq<Event>)
    requires JobInv(now, s) && Explained(id, s)
    requires forall e | e in es :: e in s.trace
    ensures Replay(id, es).status.Exhausted? <==> ShowsExhaustion(es)
    ensures Replay(id, es).status.Exhausted? ==> s.row.status.RowExhausted? && Closed(s)
  {
    if x :| x in es && IsExhaustion(x) {
      OutboxKind(now, id, s, x);
      forall e | e in es ensures !IsSuccess(e) {
        OutboxKind(now, id, s, e);
      }
      ExhaustedExactly(id, es);
    } else {
      StatusesComeFromEvents(id, es);
    }
  }

  lemma NeverCancelled(now: Time, id: JobId, s: JobState, es: seq<Event>)
    requires JobInv(now, s) && Explained(id, s)
    requires forall e | e in es :: e in s.trace
    ensures !Replay(id, es).status.Cancelled?
  {
    StatusesComeFromEvents(id, es);
    if e :| e in es && e.eventType.JobCancelled? {
      OutboxKind(now, id, s, e);
    }
  }

  lemma OutcomeUnderAnyDelivery(now: Time, id: JobId, s: JobState, es: seq<Event>)
    requires JobInv(now, s) && Explained(id, s) && OutcomesOnce(s) && DistinctIds(es)
    requires forall e | e in es :: e in s.trace
    ensures ShowsOutcome(s, Replay(id, es), es)
  {
    SuccessUnderAnyDelivery(now, id, s, es);
    if e :| e in es && IsSuccess(e) {
      OutboxKind(now, id, s, e);
    }
    FailedDelivery(now, id, s, es);
    ExhaustedDelivery(now, id, s, es);
    NeverCancelled(now, id, s, es);
  }

  /** After any run, whichever of a job's events are delivered and in whatever order: SUCCEEDED, FAILED and
      RETRIES_EXHAUSTED are each shown exactly under a condition on the order alone; a terminal status that
      is shown is the row's own, and never that of a job exhausted by recovery. */
  lemma {:induction false} DeliveredOutcome(now: Time, lease: nat, actions: seq<Action>, id: JobId,
                                            delivered: seq<Event>)
    requires ValidRun(Empty(now, lease), actions) && id in Run(Empty(now, lease), actions).jobs
    requires forall e | e in delivered :: e in Run(Empty(now, lease), actions).outbox && e.jobId == id
    requires DistinctIds(delivered)
    ensures ShowsOutcome(Slice(Run(Empty(now, lease), actions), id), Replay(id, delivered), delivered)
  {
    EmptyGood(now, lease);
    RunGood(Empty(now, lease), actions);
    var db := Run(Empty(now, lease), actions);
    assert JobGood(db.now, id, Slice(db, id));
    forall e | e in delivered ensures e in Slice(db, id).trace {
      TraceElements(db.outbox, id, e);
    }
    OutcomeUnderAnyDelivery(db.now, id, Slice(db, id), delivered);
  }

  lemma NoStartShows(es: seq<Event>, i: nat)
    requires i < |es| && NoStartAfter(es, i)
    ensures IsExhaustion(es[i]) ==> ShowsExhaustion(es)
    ensures IsFinalFailure(es[i]) ==> ShowsFailure(es)
  {
  }

  /** After any run, a delivery in which no start arrives after an exhaustion or a final failure shows the
      row's own final status, whatever else is missing or out of order. */
  lemma {:induction false} StartsFirstSuffice(now: Time, lease: nat, actions: seq<Action>, id: JobId,
                                              delivered: seq<Event>, i: nat)
    requires ValidRun(Empty(now, lease), actions) && id in Run(Empty(now, lease), actions).jobs
    requires forall e | e in delivered :: e in Run(Empty(now, lease), actions).outbox && e.jobId == id
    requires DistinctIds(delivered) && i < |delivered| && NoStartAfter(delivered, i)
    requires IsExhaustion(delivered[i]) || IsFinalFailure(delivered[i])
    ensures var j := Replay(id, delivered);
            j.status.Terminal() && FinalStatus(Run(Empty(now, lease), actions).jobs[id].status) == Some(j.status)
  {
    DeliveredOutcome(now, lease, actions, id, delivered);
    NoStartShows(delivered, i);
  }

  lemma StartReopens(j: JobVisibility, e: Event)
    requires j.status.Exhausted? && NoSuccess(j) && IsStart(e)
    ensures Reduce(j, e).status.Running? && NoSuccess(Reduce(j, e)) && !FailedAt(Reduce(j, e), AttemptOf(e))
  {
  }

  lemma FailureRetries(j: JobVisibility, e: Event)
    requires j.status.Running? && NoSuccess(j) && !FailedAt(j, AttemptOf(e))
    requires IsFailure(e) && e.retryable == Some(true)
    ensures Reduce(j, e).status.RetryPending?
  {
  }

  lemma FailureReopens(j: JobVisibility, e: Event)
    requires j.status.Failed? && NoSuccess(j) && IsStart(e) && !FailedAt(j, AttemptOf(e))
    ensures Reduce(j, e).status.Running? && NoSuccess(Reduce(j, e)) && !FailedAt(Reduce(j, e), AttemptOf(e))
  {
  }

  /** An order that hides an exhaustion: then the start and the failure of the same attempt. */
  lemma ReorderedExhaustion(id: JobId, x: Event, b: Event, f: Event)
    requires IsExhaustion(x) && IsStart(b) && IsFailure(f) && f.retryable == Some(true)
    requires AttemptOf(b) == AttemptOf(f)
    ensures Replay(id, [x, b, f]).status.RetryPending?
  {
    var one := Reduce(NewJob(id), x);
    assert one.status.Exhausted? && one.attempts == map[];
    StartReopens(one, b);
    FailureRetries(Reduce(one, b), f);
    ThreeReplayed(id, x, b, f);
  }

  /** An order that hides a final failure: then the start and the failure of an earlier attempt. */
  lemma ReorderedFailure(id: JobId, x: Event, b: Event, f: Event)
    requires IsFinalFailure(x) && IsStart(b) && IsFailure(f) && f.retryable == Some(true)
    requires AttemptOf(b) == AttemptOf(f) != AttemptOf(x)
    ensures Replay(id, [x, b, f]).status.RetryPending?
  {
    var one := Reduce(NewJob(id), x);
    FinalStep(NewJob(id), x, AttemptOf(b));
    FailureReopens(one, b);
    FailureRetries(Reduce(one, b), f);
    ThreeReplayed(id, x, b, f);
  }

  lemma ThreeReplayed(id: JobId, x: Event, b: Event, f: Event)
    ensures Replay(id, [x, b, f]) == Reduce(Reduce(Reduce(NewJob(id), x), b), f)
  {
    assert [] + [x] == [x] && [x] + [b] == [x, b] && [x, b] + [f] == [x, b, f];
    ReplayOne(id, [], x);
    ReplayOne(id, [x], b);
    ReplayOne(id, [x, b], f);
  }

  // Runs that emit such events

  /** A worker holds a claim of the job it was given, and may act on it now. */
  ghost predicate Holding(db: Database, id: JobId, c: ClaimedJob) {
    Good(db) && id in db.jobs && Genuine(id, Slice(db, id), c) && Passes(db.now, db.jobs[id], c)
  }

  lemma ClaimHoldsJob(now: Time, lease: nat, nextId: nat, id: JobId, s: JobState, owner: string)
    requires Due(now, s.row)
    ensures var t := JobStep(now, lease, nextId, id, s, Claim(owner));
            var c := ClaimFrom(nextId, id, s.row, owner);
            Genuine(id, t, c) && Passes(now, t.row, c) && t.row.spec == s.row.spec
  {
  }

  lemma StartHoldsJob(now: Time, lease: nat, nextId: nat, id: JobId, s: JobState, c: ClaimedJob)
    requires JobInv(now, s) && Genuine(id, s, c) && Passes(now, s.row, c)
    ensures var t := JobStep(now, lease, nextId, id, s, JobAction.Start(c));
            Genuine(id, t, c) && Passes(now, t.row, c) && t.row.spec == s.row.spec
  {
  }

  lemma ActKeepsClock(db: Database, id: JobId, a: JobAction)
    ensures var next := Step(db, Act(id, a));
            next.now == db.now && next.lease == db.lease && db.outbox <= next.outbox
  {
  }

  lemma ClaimHolds(db: Database, id: JobId, owner: string)
    requires Good(db) && id in db.jobs && Due(db.now, db.jobs[id])
    ensures var next := Step(db, Act(id, Claim(owner)));
            var c := ClaimFrom(db.nextId, id, db.jobs[id], owner);
            && Holding(next, id, c) && next.jobs[id].spec == db.jobs[id].spec
            && next.now == db.now && next.lease == db.lease && db.outbox <= next.outbox
  {
    StepGood(db, Act(id, Claim(owner)));
    StepSlice(db, Act(id, Claim(owner)), id);
    ActKeepsClock(db, id, Claim(owner));
    ClaimHoldsJob(db.now, db.lease, db.nextId, id, Slice(db, id), owner);
  }

  function StartedEvent(db: Database, id: JobId, c: ClaimedJob): Event {
    Emit(db.nextId, ExecutionStarted, id, c.spec, db.now, c.attemptNumber, None, None, None, None)
  }

  lemma StartWrites(db: Database, id: JobId, c: ClaimedJob)
    requires id in db.jobs && Passes(db.now, db.jobs[id], c)
    ensures Step(db, Act(id, JobAction.Start(c))).outbox == db.outbox + [StartedEvent(db, id, c)]
  {
  }

  lemma StartHolds(db: Database, id: JobId, c: ClaimedJob)
    requires Holding(db, id, c)
    ensures var next := Step(db, Act(id, JobAction.Start(c)));
            && Allowed(db, Act(id, JobAction.Start(c)))
            && Holding(next, id, c) && next.jobs[id].spec == db.jobs[id].spec
            && next.now == db.now && next.lease == db.lease
            && next.outbox == db.outbox + [StartedEvent(db, id, c)]
  {
    assert JobGood(db.now, id, Slice(db, id));
    StepGood(db, Act(id, JobAction.Start(c)));
    StepSlice(db, Act(id, JobAction.Start(c)), id);
    ActKeepsClock(db, id, JobAction.Start(c));
    StartHoldsJob(db.now, db.lease, db.nextId, id, Slice(db, id), c);
    StartWrites(db, id, c);
  }

  lemma FailEnds(db: Database, id: JobId, c: ClaimedJob, failure: HandlerFailure)
    requires Holding(db, id, c)
    ensures var next := Step(db, Act(id, JobAction.Fail(c, failure, db.now)));
            && Allowed(db, Act(id, JobAction.Fail(c, failure, db.now)))
            && Good(next) && id in next.jobs && next.jobs[id].spec == db.jobs[id].spec
            && next.now == db.now && next.lease == db.lease
            && next.outbox == db.outbox + FailEvents(db.now, db.nextId, id, c, failure, db.now)
            && next.jobs[id] == FailChange(db.now, db.nextId, id, Slice(db, id), c, failure, db.now).row
  {
    assert JobGood(db.now, id, Slice(db, id));
    StepGood(db, Act(id, JobAction.Fail(c, failure, db.now)));
    StepSlice(db, Act(id, JobAction.Fail(c, failure, db.now)), id);
  }

  predicate OwnEvents(db: Database, id: JobId, es: seq<Event>) {
    (forall e | e in es :: e in db.outbox && e.jobId == id) && DistinctIds(es)
  }

  /** The delivered events are the job's own, and yet the tables' final status is not what they show. */
  ghost predicate Hidden(db: Database, id: JobId, es: seq<Event>) {
    && id in db.jobs && db.jobs[id].status.Finished()
    && OwnEvents(db, id, es)
    && Replay(id, es).status.RetryPending?
  }

  lemma OwnThree(db: Database, id: JobId, x: Event, b: Event, f: Event)
    requires x in db.outbox && b in db.outbox && f in db.outbox && x.jobId == b.jobId == f.jobId == id
    requires x.eventId != b.eventId && x.eventId != f.eventId && b.eventId != f.eventId
    ensures OwnEvents(db, id, [x, b, f])
  {
  }

  lemma HiddenExhaustion(db: Database, id: JobId, x: Event, b: Event, f: Event) returns (delivered: seq<Event>)
    requires id in db.jobs && db.jobs[id].status.Finished() && OwnEvents(db, id, [x, b, f])
    requires IsExhaustion(x) && IsStart(b) && IsFailure(f) && f.retryable == Some(true) && AttemptOf(b) == AttemptOf(f)
    ensures Hidden(db, id, delivered)
  {
    ReorderedExhaustion(id, x, b, f);
    delivered := [x, b, f];
  }

  lemma HiddenFailure(db: Database, id: JobId, x: Event, b: Event, f: Event) returns (delivered: seq<Event>)
    requires id in db.jobs && db.jobs[id].status.Finished() && OwnEvents(db, id, [x, b, f])
    requires IsFinalFailure(x) && IsStart(b) && IsFailure(f) && f.retryable == Some(true)
    requires AttemptOf(b) == AttemptOf(f) != AttemptOf(x)
    ensures Hidden(db, id, delivered)
  {
    ReorderedFailure(id, x, b, f);
    delivered := [x, b, f];
  }

  /** A failure of the last attempt, with its start already in the outbox, can be hidden. */
  lemma HideExhaustion(db: Database, id: JobId, c: ClaimedJob, failure: HandlerFailure, b: Event)
    returns (delivered: seq<Event>)
    requires Holding(db, id, c) && c.attemptNumber == c.spec.maxAttempts && failure.retryable
    requires b in db.outbox && b.jobId == id && IsStart(b) && b.attemptNumber == c.attemptNumber
    ensures var next := Step(db, Act(id, JobAction.Fail(c, failure, db.now)));
            Hidden(next, id, delivered) && next.jobs[id].status.RowExhausted?
  {
    FailEnds(db, id, c, failure);
    var es := FailEvents(db.now, db.nextId, id, c, failure, db.now);
    var next := Step(db, Act(id, JobAction.Fail(c, failure, db.now)));
    OwnThree(next, id, es[1], b, es[0]);
    delivered := HiddenExhaustion(next, id, es[1], b, es[0]);
  }

  /** From every good state with a due job on its last attempt, claim, start and retryable failure exhaust
      the job and leave events that, delivered in another order, show RETRY_PENDING. */
  lemma ExhaustionCanHide(db: Database, id: JobId, owner: string, code: string)
    returns (run: seq<Action>, delivered: seq<Event>)
    requires Good(db) && id in db.jobs && Due(db.now, db.jobs[id])
    requires db.jobs[id].attemptNumber + 1 == db.jobs[id].spec.maxAttempts
    ensures ValidRun(db, run) && Hidden(Run(db, run), id, delivered) && Run(db, run).jobs[id].status.RowExhausted?
  {
    var c, failure := ClaimFrom(db.nextId, id, db.jobs[id], owner), HandlerFailure(code, true);
    var started := ClaimAndStart(db, id, owner);
    FailEnds(started, id, c, failure);
    delivered := HideExhaustion(started, id, c, failure, StartedEvent(Step(db, Act(id, Claim(owner))), id, c));
    run := [Act(id, Claim(owner)), Act(id, JobAction.Start(c)), Act(id, JobAction.Fail(c, failure, db.now))];
    ThreeSteps(db, run[0], run[1], run[2]);
  }

  /** The state after a claim and its start. */
  lemma ClaimAndStart(db: Database, id: JobId, owner: string) returns (started: Database)
    requires Good(db) && id in db.jobs && Due(db.now, db.jobs[id])
    ensures var c := ClaimFrom(db.nextId, id, db.jobs[id], owner);
            var claimed := Step(db, Act(id, Claim(owner)));
            && started == Step(claimed, Act(id, JobAction.Start(c)))
            && Allowed(claimed, Act(id, JobAction.Start(c)))
            && Holding(started, id, c) && started.jobs[id].spec == db.jobs[id].spec && started.now == db.now
            && StartedEvent(claimed, id, c) in started.outbox
  {
    var c, claimed := ClaimFrom(db.nextId, id, db.jobs[id], owner), Step(db, Act(id, Claim(owner)));
    ClaimHolds(db, id, owner);
    StartHolds(claimed, id, c);
    started := Step(claimed, Act(id, JobAction.Start(c)));
  }

  /** A retryable failure that leaves attempts: its start and its failure, and when the job is due again. */
  lemma FailOnce(db: Database, id: JobId, owner: string, code: string)
    returns (run: seq<Action>, b: Event, f: Event, delay: nat)
    requires Good(db) && id in db.jobs && Due(db.now, db.jobs[id])
    requires db.jobs[id].attemptNumber + 2 <= db.jobs[id].spec.maxAttempts
    ensures ValidRun(db, run) && Good(Run(db, run)) && id in Run(db, run).jobs
    ensures var next := Run(db, run);
            && b in next.outbox && f in next.outbox && b.jobId == f.jobId == id && b.eventId != f.eventId
            && IsStart(b) && IsFailure(f) && f.retryable == Some(true)
            && b.attemptNumber == f.attemptNumber == next.jobs[id].attemptNumber > 0
            && next.jobs[id].status.Waiting() && next.jobs[id].availableAt <= next.now + delay
  {
    var c, failure := ClaimFrom(db.nextId, id, db.jobs[id], owner), HandlerFailure(code, true);
    var started := ClaimAndStart(db, id, owner);
    FailEnds(started, id, c, failure);
    b := StartedEvent(Step(db, Act(id, Claim(owner))), id, c);
    f := FailEvents(started.now, started.nextId, id, c, failure, started.now)[0];
    delay := RetryDelay(c.attemptNumber);
    run := [Act(id, Claim(owner)), Act(id, JobAction.Start(c)), Act(id, JobAction.Fail(c, failure, db.now))];
    ThreeSteps(db, run[0], run[1], run[2]);
  }

  /** A job that failed retryably once can go on to a final failure that is hidden. */
  lemma HideFailure(db: Database, id: JobId, owner: string, code: string, delay: nat, b: Event, f: Event)
    returns (run: seq<Action>, delivered: seq<Event>)
    requires Good(db) && id in db.jobs && db.jobs[id].status.Waiting() && db.jobs[id].availableAt <= db.now + delay
    requires b in db.outbox && f in db.outbox && b.jobId == f.jobId == id && b.eventId != f.eventId
    requires IsStart(b) && IsFailure(f) && f.retryable == Some(true)
    requires b.attemptNumber == f.attemptNumber == db.jobs[id].attemptNumber > 0
    ensures ValidRun(db, run) && Hidden(Run(db, run), id, delivered) && Run(db, run).jobs[id].status.RowFailed?
  {
    var x;
    run, x := FailForGood(db, id, owner, code, delay);
    EventsKept(db, run, b);
    EventsKept(db, run, f);
    OwnThree(Run(db, run), id, x, b, f);
    delivered := HiddenFailure(Run(db, run), id, x, b, f);
  }

  /** Likewise for FAILED: a job with two attempts left fails retryably, then for good. */
  lemma FailureCanHide(db: Database, id: JobId, owner: string, code: string)
    returns (run: seq<Action>, delivered: seq<Event>)
    requires Good(db) && id in db.jobs && Due(db.now, db.jobs[id])
    requires db.jobs[id].attemptNumber + 2 <= db.jobs[id].spec.maxAttempts
    ensures ValidRun(db, run) && Hidden(Run(db, run), id, delivered) && Run(db, run).jobs[id].status.RowFailed?
  {
    var first, b, f, delay := FailOnce(db, id, owner, code);
    var rest;
    rest, delivered := HideFailure(Run(db, first), id, owner, code, delay, b, f);
    RunsJoin(db, first, rest);
    run := first + rest;
  }

  lemma FailForGood(db: Database, id: JobId, owner: string, code: string, delay: nat)
    returns (run: seq<Action>, x: Event)
    requires Good(db) && id in db.jobs && db.jobs[id].status.Waiting() && db.jobs[id].availableAt <= db.now + delay
    ensures ValidRun(db, run) && Good(Run(db, run)) && id in Run(db, run).jobs
    ensures Run(db, run).jobs[id].status.RowFailed? && x in Run(db, run).outbox && x.jobId == id
    ensures IsFinalFailure(x) && x.attemptNumber == db.jobs[id].attemptNumber + 1 && x.eventId >= db.nextId
  {
    var tick := Tick(delay);
    var one := Step(db, tick);
    StepGood(db, tick);
    var c, failure := ClaimFrom(one.nextId, id, one.jobs[id], owner), HandlerFailure(code, false);
    var claim, fail := Act(id, Claim(owner)), Act(id, JobAction.Fail(c, failure, one.now));
    var two := Step(one, claim);
    ClaimHolds(one, id, owner);
    FailEnds(two, id, c, failure);
    run := [tick, claim, fail];
    ThreeSteps(db, tick, claim, fail);
    x := FailEvents(two.now, two.nextId, id, c, failure, two.now)[0];
  }
}

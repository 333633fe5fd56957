/** How each column of the aggregate comes to its value: which events enter each status, and which events
    write each of the other columns.

The handlers say what one event does to every column; here each column says which events write it.
*/
module Transitions {
  import opened Model
  import opened Reducer
  import opened StatusLaws

  // Entering a status

  /** The job may still be submitted, acknowledged or retrieved. */
  predicate BeforeExecution(s: Status) {
    s.Unknown? || s.Created? || s.PendingSubmission? || s.Scheduled? || s.AwaitingExecution? || s.Overdue?
  }

  /** A success that is neither a duplicate nor in conflict with a recorded outcome. */
  predicate TakesSuccess(j: JobVisibility, e: Event) {
    && e.eventType.ExecutionSucceeded?
    && !AttemptFor(j, e).status.AttemptSucceeded? && !AttemptFor(j, e).status.AttemptFailed?
    && !j.status.Failed? && !j.status.Exhausted?
  }

  predicate TakesFailure(j: JobVisibility, e: Event) {
    && e.eventType.ExecutionFailed?
    && !AttemptFor(j, e).status.AttemptSucceeded? && !AttemptFor(j, e).status.AttemptFailed?
    && (!j.status.Terminal() || j.status.Cancelled?)
  }

  /** A start that is not merely evidence for an outcome already recorded. */
  predicate TakesStart(j: JobVisibility, e: Event) {
    && e.eventType.ExecutionStarted?
    && !AttemptFor(j, e).status.AttemptSucceeded? && !j.status.Succeeded?
    && (j.status.Failed? ==> !AttemptFor(j, e).status.AttemptFailed?)
  }

  predicate Enters(x: Status, j: JobVisibility, e: Event) {
    match x
    case Unknown => false
    case Created => e.eventType.JobCreated? && j.status.Unknown?
    case PendingSubmission => e.eventType.SubmissionRequested? && BeforeExecution(j.status)
    case Scheduled =>
      e.eventType.SubmissionAcknowledged? && BeforeExecution(j.status) && !j.status.AwaitingExecution?
    case AwaitingExecution => e.eventType.ItemRetrieved? && !j.status.Terminal() && !j.status.Running?
    case Running => TakesStart(j, e)
    case RetryPending =>
      || (e.eventType.RetryRequested? && !j.status.Terminal())
      || (TakesFailure(j, e) && e.retryable == Some(true))
    case RetryScheduled => e.eventType.RetryAcknowledged? && !j.status.Terminal() && !j.status.Running?
    case Succeeded => TakesSuccess(j, e)
    case Failed =>
      || (TakesFailure(j, e) && e.retryable != Some(true))
      || ((e.eventType.SubmissionFailed? || e.eventType.RetryRejected?) && !j.status.Terminal())
    case Exhausted => e.eventType.RetriesExhausted? && !j.status.Succeeded?
    case Overdue => false
    case Cancelled => e.eventType.JobCancelled? && !j.status.Terminal()
  }

  predicate EntersSome(j: JobVisibility, e: Event) {
    exists x :: Enters(x, j, e)
  }

  lemma EnteredStatus(j: JobVisibility, e: Event, x: Status)
    requires SuccessAgrees(j) && Enters(x, j, e)
    ensures Reduce(j, e).status == x
  {
    match e.eventType {
      case ItemRetrieved =>
      case ExecutionStarted =>
      case ExecutionSucceeded =>
      case ExecutionFailed =>
      case _ =>
    }
  }

  lemma KeptStatus(j: JobVisibility, e: Event)
    requires SuccessAgrees(j)
    ensures Reduce(j, e).status == j.status || Enters(Reduce(j, e).status, j, e)
  {
    match e.eventType {
      case ItemRetrieved =>
      case ExecutionStarted =>
      case ExecutionSucceeded =>
      case ExecutionFailed =>
      case _ =>
    }
  }

  /** Event `i` enters status `x`, and no later event enters another. */
  ghost predicate EnteredLast(id: JobId, es: seq<Event>, x: Status, i: int) {
    && 0 <= i < |es| && Enters(x, Replay(id, es[..i]), es[i])
    && forall k, y | i < k < |es| && Enters(y, Replay(id, es[..k]), es[k]) :: y == x
  }

  lemma EnteredLastNext(id: JobId, es: seq<Event>, e: Event, x: Status, i: int)
    requires i < |es|
    ensures EnteredLast(id, es + [e], x, i) <==>
            EnteredLast(id, es, x, i) && (forall y | Enters(y, Replay(id, es), e) :: y == x)
  {
    var all := es + [e];
    assert all[..|es|] == es && all[|es|] == e;
    assert forall k | 0 <= k < |es| :: all[..k] == es[..k] && all[k] == es[k];
    if EnteredLast(id, all, x, i) {
      forall y | Enters(y, Replay(id, es), e) ensures y == x {
        assert Enters(y, Replay(id, all[..|es|]), all[|es|]);
      }
      forall k, y | i < k < |es| && Enters(y, Replay(id, es[..k]), es[k]) ensures y == x {
        assert Enters(y, Replay(id, all[..k]), all[k]);
      }
    }
  }

  /** A replay shows the status some event entered with no later event entering another; with no entry it
      shows UNKNOWN. */
  lemma {:induction false} StatusIsEnteredLast(id: JobId, es: seq<Event>)
    ensures var x := Replay(id, es).status;
            if x.Unknown? then forall i, y | 0 <= i < |es| :: !Enters(y, Replay(id, es[..i]), es[i])
            else exists i :: EnteredLast(id, es, x, i)
  {
    if es != [] {
      var init, last := es[..|es| - 1], es[|es| - 1];
      var j, x := Replay(id, init), Replay(id, es).status;
      assert init + [last] == es;
      StatusIsEnteredLast(id, init);
      ReplayAudited(id, init);
      ReplayOne(id, init, last);
      KeptStatus(j, last);
      assert forall k | 0 <= k < |init| :: es[..k] == init[..k] && es[k] == init[k];
      if Enters(x, j, last) {
        assert EnteredLast(id, es, x, |init|);
      } else {
        forall y | Enters(y, j, last) ensures y == x {
          EnteredStatus(j, last, y);
        }
        if !x.Unknown? {
          var i :| EnteredLast(id, init, x, i);
          EnteredLastNext(id, init, last, x, i);
        }
      }
    }
  }

  /** The entering event decides: what was entered last is what is shown. */
  lemma {:induction false} EnteredLastIsShown(id: JobId, es: seq<Event>, x: Status, i: int)
    requires EnteredLast(id, es, x, i)
    ensures Replay(id, es).status == x
  {
    var init, last := es[..|es| - 1], es[|es| - 1];
    assert init + [last] == es;
    ReplayAudited(id, init);
    ReplayOne(id, init, last);
    if i == |init| {
      EnteredStatus(Replay(id, init), last, x);
    } else {
      EnteredLastNext(id, init, last, x, i);
      EnteredLastIsShown(id, init, x, i);
      KeptStatus(Replay(id, init), last);
    }
  }

  // CANCELLED

  predicate FailedAt(j: JobVisibility, n: nat) {
    n in j.attempts && j.attempts[n].status.AttemptFailed?
  }

  /** An event that takes a cancelled job whose failed attempts are those of `j` out of CANCELLED. */
  predicate LeavesCancelled(j: JobVisibility, e: Event) {
    || e.eventType.RetriesExhausted?
    || e.eventType.ExecutionStarted?
    || ((e.eventType.ExecutionSucceeded? || e.eventType.ExecutionFailed?) && !FailedAt(j, AttemptOf(e)))
  }

  /** A cancellation arrives while the job is not terminal, and nothing that leaves CANCELLED arrives later. */
  ghost predicate CancelledFrom(id: JobId, es: seq<Event>, i: int) {
    && 0 <= i < |es| && es[i].eventType.JobCancelled? && !Replay(id, es[..i]).status.Terminal()
    && forall k | i < k < |es| :: !LeavesCancelled(Replay(id, es[..i]), es[k])
  }

  lemma CancelledStep(j: JobVisibility, e: Event, n: nat)
    requires SuccessAgrees(j) && j.status.Cancelled?
    ensures Reduce(j, e).status.Cancelled? <==> !LeavesCancelled(j, e)
    ensures !LeavesCancelled(j, e) ==> (FailedAt(Reduce(j, e), n) <==> FailedAt(j, n))
  {
    match e.eventType {
      case ItemRetrieved =>
      case ExecutionStarted =>
      case ExecutionSucceeded =>
      case ExecutionFailed =>
      case _ =>
    }
  }

  lemma CancelStep(j: JobVisibility, e: Event, n: nat)
    requires e.eventType.JobCancelled? && !j.status.Terminal()
    ensures Reduce(j, e).status.Cancelled? && (FailedAt(Reduce(j, e), n) <==> FailedAt(j, n))
  {
  }

  lemma CancelledFromNext(id: JobId, es: seq<Event>, e: Event, i: int)
    requires 0 <= i < |es|
    ensures CancelledFrom(id, es + [e], i) <==>
            CancelledFrom(id, es, i) && !LeavesCancelled(Replay(id, es[..i]), e)
  {
    var all := es + [e];
    assert all[..i] == es[..i] && all[i] == es[i] && all[|es|] == e;
    assert forall k | 0 <= k < |es| :: all[k] == es[k];
  }

  lemma {:induction false} CancelledPhase(id: JobId, es: seq<Event>, i: int, n: nat)
    requires CancelledFrom(id, es, i)
    ensures Replay(id, es).status.Cancelled?
    ensures FailedAt(Replay(id, es), n) <==> FailedAt(Replay(id, es[..i]), n)
  {
    var init, last := es[..|es| - 1], es[|es| - 1];
    assert init + [last] == es;
    ReplayAudited(id, init);
    ReplayOne(id, init, last);
    if i == |init| {
      CancelStep(Replay(id, init), last, n);
    } else {
      assert init[..i] == es[..i];
      CancelledFromNext(id, init, last, i);
      CancelledPhase(id, init, i, n);
      CancelledPhase(id, init, i, AttemptOf(last));
      CancelledStep(Replay(id, init), last, n);
    }
  }

  lemma NotCancelledYet(j: JobVisibility, e: Event)
    requires SuccessAgrees(j) && !j.status.Cancelled? && Reduce(j, e).status.Cancelled?
    ensures e.eventType.JobCancelled? && !j.status.Terminal()
  {
    KeptStatus(j, e);
  }

  lemma {:induction false} CancelledHasCause(id: JobId, es: seq<Event>)
    requires Replay(id, es).status.Cancelled?
    ensures exists i :: CancelledFrom(id, es, i)
  {
    var init, last := es[..|es| - 1], es[|es| - 1];
    assert init + [last] == es;
    ReplayAudited(id, init);
    ReplayOne(id, init, last);
    if Replay(id, init).status.Cancelled? {
      CancelledHasCause(id, init);
      var i :| CancelledFrom(id, init, i);
      CancelledPhase(id, init, i, AttemptOf(last));
      CancelledStep(Replay(id, init), last, 0);
      assert init[..i] == es[..i];
      CancelledFromNext(id, init, last, i);
    } else {
      NotCancelledYet(Replay(id, init), last);
      assert CancelledFrom(id, es, |init|);
    }
  }

  /** The replay shows CANCELLED exactly when a cancellation arrives while the job is not terminal and no
      exhaustion, start or outcome of an attempt that had not failed by then arrives later. */
  lemma CancelledExactly(id: JobId, es: seq<Event>)
    ensures Replay(id, es).status.Cancelled? <==> exists i :: CancelledFrom(id, es, i)
  {
    if Replay(id, es).status.Cancelled? {
      CancelledHasCause(id, es);
    }
    if i :| CancelledFrom(id, es, i) {
      CancelledPhase(id, es, i, 0);
    }
  }

  // The decision

  /** The event would change nothing that it speaks about. */
  predicate ComesTooLate(j: JobVisibility, e: Event) {
    || ((e.eventType.SubmissionFailed? || e.eventType.RetryRequested? || e.eventType.RetryRejected?
         || e.eventType.JobCancelled?) && j.status.Terminal())
    || (e.eventType.RetriesExhausted? && j.status.Succeeded?)
  }

  predicate RepeatsOutcome(j: JobVisibility, e: Event) {
    || (e.eventType.ExecutionSucceeded? && AttemptFor(j, e).status.AttemptSucceeded?)
    || (e.eventType.ExecutionFailed? && FailedAt(j, AttemptOf(e)))
  }

  /** Every event adds one decision: a repeated outcome is a semantic duplicate, what comes too late is ignored,
      and everything else is applied and counts as a version. */
  lemma DecisionTaken(j: JobVisibility, e: Event)
    ensures var kind := if RepeatsOutcome(j, e) then SemanticDuplicate
                        else if ComesTooLate(j, e) then Ignored else Applied;
            && Reduce(j, e).decisions == j.decisions + [Decision(e.eventId, kind)]
            && Reduce(j, e).version == j.version + (if kind.Applied? then 1 else 0)
  {
    match e.eventType {
      case ItemRetrieved =>
      case ExecutionStarted =>
      case ExecutionSucceeded =>
      case ExecutionFailed =>
      case _ =>
    }
  }

  // Completion

  predicate Closes(j: JobVisibility, e: Event) {
    || TakesSuccess(j, e) || TakesFailure(j, e)
    || (e.eventType.SubmissionFailed? && !j.status.Terminal())
    || Enters(Exhausted, j, e) || Enters(Cancelled, j, e)
  }

  lemma CompletedStep(j: JobVisibility, e: Event)
    ensures Reduce(j, e).completedAt == if Closes(j, e) then Latest(j.completedAt, Some(e.eventTime)) else j.completedAt
  {
    match e.eventType {
      case ItemRetrieved =>
      case ExecutionStarted =>
      case ExecutionSucceeded =>
      case ExecutionFailed =>
      case _ =>
    }
  }

  predicate ClosesAt(id: JobId, es: seq<Event>, i: int) {
    0 <= i < |es| && Closes(Replay(id, es[..i]), es[i])
  }

  /** completed_at is the latest instant of the events that closed the job, and absent when none did. */
  ghost predicate IsLatestClosing(id: JobId, es: seq<Event>, at: Option<Time>) {
    && (at.None? ==> forall i :: !ClosesAt(id, es, i))
    && (at.Some? ==>
          && (exists i :: ClosesAt(id, es, i) && es[i].eventTime == at.value)
          && (forall i | ClosesAt(id, es, i) :: es[i].eventTime <= at.value))
  }

  lemma NotClosingNext(id: JobId, es: seq<Event>, e: Event, at: Option<Time>)
    requires IsLatestClosing(id, es, at) && !Closes(Replay(id, es), e)
    ensures IsLatestClosing(id, es + [e], at)
  {
    forall i: int ensures ClosesAt(id, es + [e], i) <==> ClosesAt(id, es, i) {
      ClosesAtNext(id, es, e, i);
    }
  }

  lemma ClosingNext(id: JobId, es: seq<Event>, e: Event, at: Option<Time>)
    requires IsLatestClosing(id, es, at) && Closes(Replay(id, es), e)
    ensures IsLatestClosing(id, es + [e], Latest(at, Some(e.eventTime)))
  {
    forall i: int ensures ClosesAt(id, es + [e], i) <==> i == |es| || ClosesAt(id, es, i) {
      ClosesAtNext(id, es, e, i);
    }
    var all, latest := es + [e], Latest(at, Some(e.eventTime));
    assert ClosesAt(id, all, |es|) && all[|es|] == e;
    forall i | ClosesAt(id, all, i) ensures all[i].eventTime <= latest.value {
      assert i < |es| ==> ClosesAt(id, es, i) && all[i] == es[i];
    }
    if latest == at {
      var w :| ClosesAt(id, es, w) && es[w].eventTime == at.value;
      assert ClosesAt(id, all, w) && all[w] == es[w];
    }
  }

  lemma ClosesAtNext(id: JobId, es: seq<Event>, e: Event, i: int)
    ensures ClosesAt(id, es + [e], i) <==> if i == |es| then Closes(Replay(id, es), e) else ClosesAt(id, es, i)
  {
    if 0 <= i <= |es| {
      assert (es + [e])[..i] == es[..i];
    }
  }

  lemma {:induction false} CompletedIsLatest(id: JobId, es: seq<Event>)
    ensures IsLatestClosing(id, es, Replay(id, es).completedAt)
  {
    if es != [] {
      var init, last := es[..|es| - 1], es[|es| - 1];
      assert init + [last] == es;
      CompletedIsLatest(id, init);
      CompletedStep(Replay(id, init), last);
      ReplayOne(id, init, last);
      if Closes(Replay(id, init), last) {
        ClosingNext(id, init, last, Replay(id, init).completedAt);
      } else {
        NotClosingNext(id, init, last, Replay(id, init).completedAt);
      }
    }
  }

  // Failures and retries

  /** The last failure is that of the last failed attempt taken, at the latest instant of any. */
  lemma FailureColumns(j: JobVisibility, e: Event)
    ensures Reduce(j, e).lastFailure == if TakesFailure(j, e)
                                        then LastFailure(Latest(j.lastFailure.at, Some(e.eventTime)), e.errorCode)
                                        else j.lastFailure
  {
    match e.eventType {
      case ItemRetrieved =>
      case ExecutionStarted =>
      case ExecutionSucceeded =>
      case ExecutionFailed =>
      case _ =>
    }
  }

  predicate AsksRetry(j: JobVisibility, e: Event) {
    e.eventType.RetryRequested? && !j.status.Terminal()
  }

  predicate RejectsRetry(j: JobVisibility, e: Event) {
    e.eventType.RetryRejected? && !j.status.Terminal()
  }

  lemma RequestedMark(j: JobVisibility, e: Event)
    ensures Reduce(j, e).retry.requested <==>
            if TakesFailure(j, e) then false
            else AsksRetry(j, e) || RejectsRetry(j, e) || e.eventType.RetryAcknowledged? || j.retry.requested
  {
    match e.eventType {
      case ItemRetrieved =>
      case ExecutionStarted =>
      case ExecutionSucceeded =>
      case ExecutionFailed =>
      case _ =>
    }
  }

  lemma AcknowledgedMark(j: JobVisibility, e: Event)
    ensures Reduce(j, e).retry.acknowledged <==>
            if e.eventType.RetryAcknowledged? then true
            else j.retry.acknowledged && !TakesFailure(j, e) && !AsksRetry(j, e) && !RejectsRetry(j, e)
                 && !Enters(Exhausted, j, e)
  {
    match e.eventType {
      case ItemRetrieved =>
      case ExecutionStarted =>
      case ExecutionSucceeded =>
      case ExecutionFailed =>
      case _ =>
    }
  }

  lemma EligibleMark(j: JobVisibility, e: Event)
    ensures Reduce(j, e).retry.eligible <==>
            if TakesFailure(j, e) then e.retryable == Some(true)
            else j.retry.eligible && !TakesSuccess(j, e) && !RejectsRetry(j, e) && !Enters(Exhausted, j, e)
  {
    match e.eventType {
      case ItemRetrieved =>
      case ExecutionStarted =>
      case ExecutionSucceeded =>
      case ExecutionFailed =>
      case _ =>
    }
  }

  /** Which events write the instants of a retry. */
  lemma RetryInstants(j: JobVisibility, e: Event)
    ensures var r := Reduce(j, e).retry;
            && r.requestedAt == (if AsksRetry(j, e) then Latest(j.retry.requestedAt, Some(e.eventTime))
                                 else j.retry.requestedAt)
            && r.nextRetryAt == (if ClearsRetry(j, e) then None
                                 else if SetsRetry(e) then e.nextRetryAt else j.retry.nextRetryAt)
  {
    match e.eventType {
      case ItemRetrieved =>
      case ExecutionStarted =>
      case ExecutionSucceeded =>
      case ExecutionFailed =>
      case _ =>
    }
  }

  predicate SetsRetry(e: Event) {
    e.eventType.RetryAcknowledged? && e.nextRetryAt.Some?
  }

  predicate ClearsRetry(j: JobVisibility, e: Event) {
    TakesSuccess(j, e) || TakesFailure(j, e) || AsksRetry(j, e) || RejectsRetry(j, e) || Enters(Exhausted, j, e)
  }

  /** An acknowledgement sets the instant, and nothing after it clears it or sets another. */
  ghost predicate RetrySetAt(id: JobId, es: seq<Event>, i: int, t: Time) {
    && 0 <= i < |es| && SetsRetry(es[i]) && es[i].nextRetryAt == Some(t)
    && forall k | i < k < |es| ::
         !ClearsRetry(Replay(id, es[..k]), es[k]) && (SetsRetry(es[k]) ==> es[k].nextRetryAt == Some(t))
  }

  lemma RetrySetNext(id: JobId, es: seq<Event>, e: Event, i: int, t: Time)
    requires i < |es|
    ensures RetrySetAt(id, es + [e], i, t) <==>
            RetrySetAt(id, es, i, t) && !ClearsRetry(Replay(id, es), e) && (SetsRetry(e) ==> e.nextRetryAt == Some(t))
  {
    var all := es + [e];
    assert all[..|es|] == es && all[|es|] == e;
    assert forall k | 0 <= k < |es| :: all[..k] == es[..k] && all[k] == es[k];
  }

  ghost predicate RetrySet(id: JobId, es: seq<Event>, t: Time) {
    exists i :: RetrySetAt(id, es, i, t)
  }

  lemma RetrySetAppend(id: JobId, es: seq<Event>, e: Event, t: Time)
    ensures RetrySet(id, es + [e], t) <==>
            if SetsRetry(e) then e.nextRetryAt == Some(t)
            else RetrySet(id, es, t) && !ClearsRetry(Replay(id, es), e)
  {
    var all := es + [e];
    if SetsRetry(e) && e.nextRetryAt == Some(t) {
      assert RetrySetAt(id, all, |es|, t);
    }
    if i :| RetrySetAt(id, es, i, t) {
      RetrySetNext(id, es, e, i, t);
    }
    if i :| RetrySetAt(id, all, i, t) {
      if i < |es| {
        RetrySetNext(id, es, e, i, t);
      }
    }
  }

  /** next_retry_at is what the last acknowledgement said, unless something cleared it since. */
  lemma {:induction false} NextRetryExactly(id: JobId, es: seq<Event>, t: Time)
    ensures Replay(id, es).retry.nextRetryAt == Some(t) <==> RetrySet(id, es, t)
  {
    if es != [] {
      var init, last := es[..|es| - 1], es[|es| - 1];
      assert init + [last] == es;
      NextRetryExactly(id, init, t);
      RetryInstants(Replay(id, init), last);
      ReplayOne(id, init, last);
      RetrySetAppend(id, init, last, t);
    }
  }

  // Attempts

  /** Which events write each column of the attempt they name. */
  lemma AttemptColumns(j: JobVisibility, e: Event)
    requires Touches(e)
    ensures AttemptOf(e) in Reduce(j, e).attempts || RepeatsOutcome(j, e)
    ensures var a, b := AttemptFor(j, e), AttemptFor(Reduce(j, e), e);
            && b.attemptNumber == a.attemptNumber
            && b.status == (if TakesStart(j, e) then AttemptRunning
                            else if TakesSuccess(j, e) then AttemptSucceeded
                            else if TakesFailure(j, e) then AttemptFailed
                            else if e.eventType.ItemRetrieved? && a.status.AttemptUnknown? then AttemptRetrieved
                            else a.status)
            && b.completedAt == (if TakesSuccess(j, e) || TakesFailure(j, e)
                                 then Latest(a.completedAt, Some(e.eventTime)) else a.completedAt)
            && b.retryable == (if TakesFailure(j, e) then e.retryable else a.retryable)
            && b.errorCode == (if TakesFailure(j, e) then e.errorCode else a.errorCode)
            && b.resultCode == (if !TakesSuccess(j, e) then a.resultCode
                                else if e.resultCode.None? || e.resultCode == Some("") then Some("SUCCESS")
                                else e.resultCode)
  {
    match e.eventType {
      case ItemRetrieved =>
      case ExecutionStarted =>
      case ExecutionSucceeded =>
      case ExecutionFailed =>
    }
  }

  /** An event without an attempt number speaks of attempt 1; an attempt first spoken of is blank before. */
  lemma AttemptNamed(j: JobVisibility, e: Event)
    ensures AttemptOf(e) == if e.attemptNumber == 0 then 1 else e.attemptNumber
    ensures AttemptOf(e) !in j.attempts ==>
              AttemptFor(j, e) == Attempt(AttemptOf(e), AttemptUnknown, None, None, None, None, None, None)
    ensures AttemptOf(e) in j.attempts ==> AttemptFor(j, e) == j.attempts[AttemptOf(e)]
    ensures Touches(e) ==> AttemptOf(e) in Reduce(j, e).attempts
  {
    match e.eventType {
      case ItemRetrieved =>
      case ExecutionStarted =>
      case ExecutionSucceeded =>
      case ExecutionFailed =>
      case _ =>
    }
  }

  /** A job nothing is known of: a generic type, three attempts, and every other column blank. */
  lemma BlankJob(id: JobId)
    ensures var j := Replay(id, []);
            && j.jobId == id && j.status.Unknown? && j.version == 0
            && j.description == Description("", "GENERIC", None, None, 3)
            && j.milestones == Milestones(None, None, None, None, None) && j.completedAt.None?
            && j.retry == RetryState(false, false, false, None, None) && j.lastFailure == LastFailure(None, None)
            && j.flags == Flags(false, false, false) && j.freshness == Freshness(None, None)
            && j.attempts == map[] && j.findings == map[] && j.decisions == []
  {
  }

  // Findings and flags

  /** An outcome that neither repeats a recorded one nor can be taken. */
  predicate ConflictsWithOutcome(j: JobVisibility, e: Event) {
    && (e.eventType.ExecutionSucceeded? || e.eventType.ExecutionFailed?)
    && !RepeatsOutcome(j, e) && !TakesSuccess(j, e) && !TakesFailure(j, e)
  }

  predicate RaisesFinding(j: JobVisibility, e: Event, code: FindingCode) {
    match code
    case AttemptSequenceGap =>
      Touches(e) && !RepeatsOutcome(j, e) && exists m | 1 <= m < AttemptOf(e) :: m !in j.attempts
    case ExecutedAfterCancel => j.status.Cancelled? && (TakesStart(j, e) || TakesSuccess(j, e))
    case ExecutionAfterExhaustion => j.status.Exhausted? && TakesStart(j, e)
    case ConflictingOutcome => ConflictsWithOutcome(j, e)
    case _ => false
  }

  predicate ResolvesFinding(e: Event, code: FindingCode) {
    || (code.SchedulerAckTimeout? && e.eventType.SubmissionAcknowledged?)
    || (code.RetryAckTimeout? && e.eventType.RetryAcknowledged?)
  }

  /** A finding is raised active, resolved by its acknowledgement, and otherwise left as it is; it is dated by
      when the event came in, and keeps the date of its first observation. */
  ghost predicate FindingFollows(j: JobVisibility, e: Event, after: map<FindingCode, Finding>, code: FindingCode) {
    var before := j.findings;
    if RaisesFinding(j, e, code) then
      && code in after && after[code].active && after[code].resolvedAt.None?
      && after[code].firstObservedAt == if code in before then before[code].firstObservedAt else e.ingestionTime
    else if ResolvesFinding(e, code) && code in before && before[code].active then
      && code in after && !after[code].active && after[code].resolvedAt == Some(e.ingestionTime)
      && after[code].firstObservedAt == before[code].firstObservedAt
    else (code in after <==> code in before) && (code in before ==> after[code] == before[code])
  }

  lemma ItemRetrievedFinding(j: JobVisibility, e: Event, code: FindingCode)
    requires e.eventType.ItemRetrieved?
    ensures FindingFollows(j, e, Reduce(j, e).findings, code)
  {
  }

  /** What raising does to one entry. */
  lemma RaisedEntry(raised: bool, fs: map<FindingCode, Finding>, code: FindingCode, at: Time, c: FindingCode)
    ensures var after := RaiseIf(raised, fs, code, at);
            if raised && c == code then
              && c in after && after[c].active && after[c].resolvedAt.None?
              && after[c].firstObservedAt == if c in fs then fs[c].firstObservedAt else at
            else (c in after <==> c in fs) && (c in fs ==> after[c] == fs[c])
  {
  }

  /** A gap, an execution after cancellation and one code more, each raised on its condition. */
  function RaiseThree(g: bool, c: bool, x: bool, last: FindingCode, fs: map<FindingCode, Finding>, at: Time)
    : map<FindingCode, Finding>
  {
    RaiseIf(x, RaiseIf(c, RaiseIf(g, fs, AttemptSequenceGap, at), ExecutedAfterCancel, at), last, at)
  }

  function RaisedBy(j: JobVisibility, e: Event, last: FindingCode): map<FindingCode, Finding> {
    RaiseThree(RaisesFinding(j, e, AttemptSequenceGap), RaisesFinding(j, e, ExecutedAfterCancel),
               RaisesFinding(j, e, last), last, j.findings, e.ingestionTime)
  }

  lemma StartFindings(j: JobVisibility, e: Event)
    requires e.eventType.ExecutionStarted?
    ensures Reduce(j, e).findings == RaisedBy(j, e, ExecutionAfterExhaustion)
  {
  }

  lemma SuccessFindings(j: JobVisibility, e: Event)
    requires e.eventType.ExecutionSucceeded?
    ensures Reduce(j, e).findings == RaisedBy(j, e, ConflictingOutcome)
  {
  }

  lemma FailureFindings(j: JobVisibility, e: Event)
    requires e.eventType.ExecutionFailed?
    ensures Reduce(j, e).findings == RaisedBy(j, e, ConflictingOutcome)
  {
  }

  lemma ThreeRaised(g: bool, c: bool, x: bool, last: FindingCode, fs: map<FindingCode, Finding>, at: Time,
                    code: FindingCode)
    ensures var after := RaiseThree(g, c, x, last, fs, at);
            if (g && code.AttemptSequenceGap?) || (c && code.ExecutedAfterCancel?) || (x && code == last)
            then && code in after && after[code].active && after[code].resolvedAt.None?
                 && after[code].firstObservedAt == if code in fs then fs[code].firstObservedAt else at
            else (code in after <==> code in fs) && (code in fs ==> after[code] == fs[code])
  {
    var gap := RaiseIf(g, fs, AttemptSequenceGap, at);
    RaisedEntry(g, fs, AttemptSequenceGap, at, code);
    RaisedEntry(c, gap, ExecutedAfterCancel, at, code);
    RaisedEntry(x, RaiseIf(c, gap, ExecutedAfterCancel, at), last, at, code);
  }

  lemma RaisedFollows(j: JobVisibility, e: Event, last: FindingCode, code: FindingCode)
    requires e.eventType.ExecutionStarted? || e.eventType.ExecutionSucceeded? || e.eventType.ExecutionFailed?
    requires if e.eventType.ExecutionStarted? then last.ExecutionAfterExhaustion? else last.ConflictingOutcome?
    ensures FindingFollows(j, e, RaisedBy(j, e, last), code)
  {
    ThreeRaised(RaisesFinding(j, e, AttemptSequenceGap), RaisesFinding(j, e, ExecutedAfterCancel),
                RaisesFinding(j, e, last), last, j.findings, e.ingestionTime, code);
  }

  lemma OtherFinding(j: JobVisibility, e: Event, code: FindingCode)
    requires !Touches(e)
    ensures FindingFollows(j, e, Reduce(j, e).findings, code)
  {
  }

  lemma FindingColumns(j: JobVisibility, e: Event, code: FindingCode)
    ensures FindingFollows(j, e, Reduce(j, e).findings, code)
  {
    match e.eventType {
      case ItemRetrieved => ItemRetrievedFinding(j, e, code);
      case ExecutionStarted =>
        StartFindings(j, e);
        RaisedFollows(j, e, ExecutionAfterExhaustion, code);
      case ExecutionSucceeded =>
        SuccessFindings(j, e);
        RaisedFollows(j, e, ConflictingOutcome, code);
      case ExecutionFailed =>
        FailureFindings(j, e);
        RaisedFollows(j, e, ConflictingOutcome, code);
      case _ => OtherFinding(j, e, code);
    }
  }

  /** The lifecycle is incomplete once an attempt is missing, a start has no retrieval, an outcome no start, or
      an outcome is in conflict; the violations are the executions that come after the end. */
  ghost predicate FlagsFollow(j: JobVisibility, e: Event, f: Flags) {
    && (f.incomplete <==>
          || j.flags.incomplete || RaisesFinding(j, e, AttemptSequenceGap) || ConflictsWithOutcome(j, e)
          || (e.eventType.ExecutionStarted? && AttemptFor(j, e).retrievedAt.None?)
          || ((TakesSuccess(j, e) || TakesFailure(j, e)) && AttemptFor(j, e).startedAt.None?))
    && (f.cancellationViolation <==> j.flags.cancellationViolation || RaisesFinding(j, e, ExecutedAfterCancel))
    && (f.exhaustedViolation <==> j.flags.exhaustedViolation || RaisesFinding(j, e, ExecutionAfterExhaustion))
  }

  lemma ItemRetrievedFlags(j: JobVisibility, e: Event)
    requires e.eventType.ItemRetrieved?
    ensures FlagsFollow(j, e, Reduce(j, e).flags)
  {
  }

  lemma ExecutionStartedFlags(j: JobVisibility, e: Event)
    requires e.eventType.ExecutionStarted?
    ensures FlagsFollow(j, e, Reduce(j, e).flags)
  {
  }

  lemma ExecutionSucceededFlags(j: JobVisibility, e: Event)
    requires e.eventType.ExecutionSucceeded?
    ensures FlagsFollow(j, e, Reduce(j, e).flags)
  {
  }

  lemma ExecutionFailedFlags(j: JobVisibility, e: Event)
    requires e.eventType.ExecutionFailed?
    ensures FlagsFollow(j, e, Reduce(j, e).flags)
  {
  }

  lemma FlagColumns(j: JobVisibility, e: Event)
    ensures FlagsFollow(j, e, Reduce(j, e).flags)
  {
    match e.eventType {
      case ItemRetrieved => ItemRetrievedFlags(j, e);
      case ExecutionStarted => ExecutionStartedFlags(j, e);
      case ExecutionSucceeded => ExecutionSucceededFlags(j, e);
      case ExecutionFailed => ExecutionFailedFlags(j, e);
      case _ =>
    }
  }

  // Description

  lemma HandlerKeepsDescription(j: JobVisibility, e: Event)
    ensures Handle(j, e).job.description == j.description
  {
    match e.eventType {
      case ItemRetrieved =>
      case ExecutionStarted =>
      case ExecutionSucceeded =>
      case ExecutionFailed =>
      case _ =>
    }
  }

  /** The first correlation id and schedule, the last job type and scheduler reference that say anything, and
      the greatest maximum of attempts. */
  predicate Merges(d: Description, e: Event, r: Description) {
    && (d.correlationId != "" ==> r.correlationId == d.correlationId)
    && (d.correlationId == "" ==> r.correlationId == e.correlationId)
    && (e.jobType != "" ==> r.jobType == e.jobType) && (e.jobType == "" ==> r.jobType == d.jobType)
    && (d.scheduledAt.Some? ==> r.scheduledAt == d.scheduledAt)
    && (d.scheduledAt.None? ==> r.scheduledAt == e.scheduledAt)
    && (e.schedulerReference.None? || e.schedulerReference.value == "" ==> r.schedulerReference == d.schedulerReference)
    && (e.schedulerReference.Some? && e.schedulerReference.value != "" ==> r.schedulerReference == e.schedulerReference)
    && d.maxAttempts <= r.maxAttempts && e.maxAttempts <= r.maxAttempts
    && (r.maxAttempts == d.maxAttempts || r.maxAttempts == e.maxAttempts)
  }

  lemma DescribeMerges(d: Description, e: Event)
    ensures Merges(d, e, Describe(d, e))
  {
  }

  /** Every event but a repeated outcome is merged into the description. */
  lemma DescriptionColumns(j: JobVisibility, e: Event)
    ensures if RepeatsOutcome(j, e) then Reduce(j, e).description == j.description
            else Merges(j.description, e, Reduce(j, e).description)
  {
    if !RepeatsOutcome(j, e) {
      HandlerKeepsDescription(j.(description := Describe(j.description, e)), e);
      DescribeMerges(j.description, e);
    }
  }

  /** No event changes an attempt other than the one it names, and a repeated outcome changes none. */
  lemma OtherAttemptsKept(j: JobVisibility, e: Event, n: nat)
    requires n != AttemptOf(e) || !Touches(e) || RepeatsOutcome(j, e)
    ensures n in Reduce(j, e).attempts <==> n in j.attempts
    ensures n in j.attempts ==> Reduce(j, e).attempts[n] == j.attempts[n]
  {
    match e.eventType {
      case ItemRetrieved =>
      case ExecutionStarted =>
      case ExecutionSucceeded =>
      case ExecutionFailed =>
      case _ =>
    }
  }
}

/** Laws of the recorded status and of the audit trail over every event sequence. */
module StatusLaws {
  import opened Model
  import opened Reducer

  /** The status shows success exactly when some attempt succeeded. */
  ghost predicate SuccessAgrees(job: JobVisibility) {
    job.status.Succeeded? <==> exists n :: n in job.attempts && job.attempts[n].status.AttemptSucceeded?
  }

  ghost predicate HasGap(attempts: map<nat, Attempt>) {
    exists m, n :: 1 <= m < n && n in attempts && m !in attempts
  }

  ghost predicate Active(findings: map<FindingCode, Finding>, code: FindingCode) {
    code in findings && findings[code].active
  }

  ghost predicate GapReported(job: JobVisibility) {
    HasGap(job.attempts) ==> Active(job.findings, AttemptSequenceGap) && job.flags.incomplete
  }

  /** A finding is active exactly while it has no resolution instant. */
  ghost predicate Consistent(findings: map<FindingCode, Finding>) {
    forall c | c in findings :: findings[c].active <==> findings[c].resolvedAt.None?
  }

  function CountApplied(ds: seq<Decision>): nat {
    if ds == [] then 0
    else CountApplied(ds[..|ds| - 1]) + (if ds[|ds| - 1].kind.Applied? then 1 else 0)
  }

  /** What every aggregate the reducer or the reconciler can produce satisfies. */
  ghost predicate Audited(job: JobVisibility) {
    && Sound(job)
    && job.version == CountApplied(job.decisions)
  }

  ghost predicate Sound(job: JobVisibility) {
    && SuccessAgrees(job)
    && GapReported(job)
    && Consistent(job.findings)
  }

  /** The codes an acknowledgement event may resolve; every other finding is permanent. */
  predicate Resolvable(code: FindingCode) {
    code.SchedulerAckTimeout? || code.RetryAckTimeout?
  }

  ghost predicate FindingsKept(before: map<FindingCode, Finding>, after: map<FindingCode, Finding>) {
    && (forall c | c in before ::
          c in after && after[c].firstObservedAt == before[c].firstObservedAt)
    && (forall c | Active(before, c) && !Resolvable(c) :: Active(after, c))
  }

  ghost predicate FlagsKept(before: Flags, after: Flags) {
    && (before.cancellationViolation ==> after.cancellationViolation)
    && (before.exhaustedViolation ==> after.exhaustedViolation)
    && (before.incomplete ==> after.incomplete)
  }

  /** What no later input takes away. */
  ghost predicate HistoryKept(before: JobVisibility, after: JobVisibility) {
    && FindingsKept(before.findings, after.findings)
    && FlagsKept(before.flags, after.flags)
    && (before.status.Succeeded? ==> after.status.Succeeded?)
    && before.decisions <= after.decisions
  }

  lemma RaiseKept(raised: bool, findings: map<FindingCode, Finding>, code: FindingCode, at: Time)
    requires Consistent(findings)
    ensures Consistent(RaiseIf(raised, findings, code, at))
    ensures FindingsKept(findings, RaiseIf(raised, findings, code, at))
    ensures raised ==> Active(RaiseIf(raised, findings, code, at), code)
  {
  }

  lemma ResolveKept(findings: map<FindingCode, Finding>, code: FindingCode, at: Time)
    requires Consistent(findings) && Resolvable(code)
    ensures Consistent(Resolve(findings, code, at))
    ensures FindingsKept(findings, Resolve(findings, code, at))
  {
  }

  /** The findings a handler leaves: the old ones, one acknowledgement resolved, or a few raised on top. */
  lemma HandleFindings(job: JobVisibility, e: Event)
    requires Consistent(job.findings)
    ensures Consistent(Handle(job, e).job.findings)
    ensures FindingsKept(job.findings, Handle(job, e).job.findings)
    ensures Touches(e) && MissingPredecessor(job.attempts, AttemptOf(e)) ==>
              Active(Handle(job, e).job.findings, AttemptSequenceGap)
  {
    var gap := GapFindings(job, e);
    RaiseKept(MissingPredecessor(job.attempts, AttemptOf(e)), job.findings, AttemptSequenceGap, e.ingestionTime);
    match e.eventType {
      case SubmissionAcknowledged => ResolveKept(job.findings, SchedulerAckTimeout, e.ingestionTime);
      case RetryAcknowledged => ResolveKept(job.findings, RetryAckTimeout, e.ingestionTime);
      case ExecutionStarted =>
        RaiseKept(job.status.Cancelled?, gap, ExecutedAfterCancel, e.ingestionTime);
        var cancelled := RaiseIf(job.status.Cancelled?, gap, ExecutedAfterCancel, e.ingestionTime);
        RaiseKept(job.status.Exhausted?, cancelled, ExecutionAfterExhaustion, e.ingestionTime);
      case ExecutionSucceeded =>
        RaiseKept(job.status.Cancelled?, gap, ExecutedAfterCancel, e.ingestionTime);
        RaiseKept(true, gap, ConflictingOutcome, e.ingestionTime);
      case ExecutionFailed =>
        RaiseKept(true, gap, ConflictingOutcome, e.ingestionTime);
      case _ =>
    }
  }

  /** A handler changes at most the attempt its event names, and opens it exactly when it touches one. */
  lemma HandleAttempts(job: JobVisibility, e: Event)
    ensures var after, n := Handle(job, e).job.attempts, AttemptOf(e);
            if Touches(e) then n in after && after == job.attempts[n := after[n]] else after == job.attempts
  {
    match e.eventType {
      case ItemRetrieved =>
      case ExecutionStarted =>
      case ExecutionSucceeded =>
      case ExecutionFailed =>
      case _ =>
    }
  }

  /** Success of the status and of the named attempt only ever appear together. */
  lemma HandleOutcome(job: JobVisibility, e: Event)
    requires !IsSemanticDuplicate(job, e)
    ensures var after, n := Handle(job, e).job, AttemptOf(e);
            && (job.status.Succeeded? ==> after.status.Succeeded?)
            && (AttemptFor(job, e).status.AttemptSucceeded? ==> AttemptFor(after, e).status.AttemptSucceeded?)
            && (AttemptFor(after, e).status.AttemptSucceeded? && !AttemptFor(job, e).status.AttemptSucceeded? ==>
                  after.status.Succeeded?)
            && (after.status.Succeeded? && !job.status.Succeeded? ==> AttemptFor(after, e).status.AttemptSucceeded?)
  {
    match e.eventType {
      case ItemRetrieved =>
      case ExecutionStarted =>
      case ExecutionSucceeded =>
      case ExecutionFailed =>
      case _ =>
    }
  }

  lemma HandleSuccess(job: JobVisibility, e: Event)
    requires SuccessAgrees(job)
    requires !IsSemanticDuplicate(job, e)
    ensures SuccessAgrees(Handle(job, e).job)
  {
    var after := Handle(job, e).job;
    HandleAttempts(job, e);
    HandleOutcome(job, e);
    if w :| w in job.attempts && job.attempts[w].status.AttemptSucceeded? {
      assert w in after.attempts && after.attempts[w].status.AttemptSucceeded?;
    }
  }

  lemma HandleGap(job: JobVisibility, e: Event)
    requires GapReported(job) && Consistent(job.findings)
    ensures GapReported(Handle(job, e).job)
    ensures FlagsKept(job.flags, Handle(job, e).job.flags)
  {
    HandleAttempts(job, e);
    HandleFindings(job, e);
    var after := Handle(job, e).job;
    if HasGap(after.attempts) && !HasGap(job.attempts) {
      var m, n :| 1 <= m < n && n in after.attempts && m !in after.attempts;
      assert n == AttemptOf(e);
      assert MissingPredecessor(job.attempts, n);
    }
  }

  lemma HandleLog(job: JobVisibility, e: Event)
    ensures Handle(job, e).job.version == job.version
    ensures Handle(job, e).job.decisions == job.decisions
  {
  }

  lemma HandleSound(job: JobVisibility, e: Event)
    requires Sound(job) && !IsSemanticDuplicate(job, e)
    ensures Sound(Handle(job, e).job)
    ensures HistoryKept(job, Handle(job, e).job)
  {
    HandleSuccess(job, e);
    HandleOutcome(job, e);
    HandleGap(job, e);
    HandleFindings(job, e);
    HandleLog(job, e);
  }

  lemma ConcludeAudited(job: JobVisibility, kind: DecisionKind, e: Event)
    requires Audited(job)
    ensures Audited(Conclude(job, kind, e))
    ensures HistoryKept(job, Conclude(job, kind, e))
  {
    assert (job.decisions + [Decision(e.eventId, kind)])[..|job.decisions|] == job.decisions;
  }

  /** One event keeps the audit invariant and takes nothing away. */
  lemma ReduceAudited(job: JobVisibility, e: Event)
    requires Audited(job)
    ensures Audited(Reduce(job, e))
    ensures HistoryKept(job, Reduce(job, e))
  {
    if IsSemanticDuplicate(job, e) {
      ConcludeAudited(job, SemanticDuplicate, e);
    } else {
      var described := job.(description := Describe(job.description, e));
      HandleSound(described, e);
      HandleLog(described, e);
      var p := Handle(described, e);
      ConcludeAudited(p.job, if p.changed then Applied else Ignored, e);
    }
  }

  lemma {:induction false} ReplayAudited(id: JobId, es: seq<Event>)
    ensures Audited(Replay(id, es))
  {
    if es != [] {
      ReplayAudited(id, es[..|es| - 1]);
      ReduceAudited(Replay(id, es[..|es| - 1]), es[|es| - 1]);
    }
  }

  /** Whatever later events arrive, nothing recorded by a prefix is taken away. */
  lemma {:induction false} ReplayKeepsHistory(id: JobId, es: seq<Event>, fs: seq<Event>)
    ensures HistoryKept(Replay(id, es), Replay(id, es + fs))
    decreases |fs|
  {
    if fs == [] {
      assert es + fs == es;
    } else {
      var init, last := fs[..|fs| - 1], fs[|fs| - 1];
      ReplayKeepsHistory(id, es, init);
      ReplayAudited(id, es + init);
      ReduceAudited(Replay(id, es + init), last);
      ReplayOne(id, es + init, last);
      assert (es + init) + [last] == es + fs;
    }
  }

  /** A recorded terminal status is left by one event exactly in these cases. */
  lemma LeavingTerminal(job: JobVisibility, e: Event)
    requires SuccessAgrees(job)
    ensures var after := Reduce(job, e).status;
            var n := AttemptOf(e);
            match job.status
            case Succeeded => after.Succeeded?
            case Exhausted => after != Exhausted <==> e.eventType.ExecutionStarted?
            case Failed =>
              after != Failed <==>
                || e.eventType.RetriesExhausted?
                || (e.eventType.ExecutionStarted? && !(n in job.attempts && job.attempts[n].status.AttemptFailed?))
            case Cancelled =>
              after != Cancelled <==>
                || e.eventType.RetriesExhausted?
                || e.eventType.ExecutionStarted?
                || ((e.eventType.ExecutionSucceeded? || e.eventType.ExecutionFailed?)
                    && !(n in job.attempts && job.attempts[n].status.AttemptFailed?))
            case _ => true
    ensures job.status.Exhausted? && Reduce(job, e).status != Exhausted ==>
              Reduce(job, e).status.Running? && Reduce(job, e).flags.exhaustedViolation
              && Active(Reduce(job, e).findings, ExecutionAfterExhaustion)
    ensures job.status.Cancelled? && (Reduce(job, e).status.Running? || Reduce(job, e).status.Succeeded?) ==>
              Reduce(job, e).flags.cancellationViolation && Active(Reduce(job, e).findings, ExecutedAfterCancel)
  {
    match e.eventType {
      case ItemRetrieved =>
      case ExecutionStarted =>
      case ExecutionSucceeded =>
      case ExecutionFailed =>
      case _ =>
    }
  }

  /** A run that ever leaves RETRIES_EXHAUSTED, or goes from CANCELLED straight to RUNNING or SUCCEEDED,
      still shows the violation at its end. */
  lemma ViolationsArePermanent(id: JobId, es: seq<Event>, i: nat)
    requires i < |es|
    ensures Replay(id, es[..i]).status.Exhausted? && !Replay(id, es[..i + 1]).status.Exhausted? ==>
              Replay(id, es).flags.exhaustedViolation && Active(Replay(id, es).findings, ExecutionAfterExhaustion)
    ensures Replay(id, es[..i]).status.Cancelled?
            && (Replay(id, es[..i + 1]).status.Running? || Replay(id, es[..i + 1]).status.Succeeded?) ==>
              Replay(id, es).flags.cancellationViolation && Active(Replay(id, es).findings, ExecutedAfterCancel)
  {
    ReplayAudited(id, es[..i]);
    assert es[..i + 1] == es[..i] + [es[i]];
    ReplayOne(id, es[..i], es[i]);
    LeavingTerminal(Replay(id, es[..i]), es[i]);
    assert es[..i + 1] + es[i + 1..] == es;
    ReplayKeepsHistory(id, es[..i + 1], es[i + 1..]);
  }
}

/** When a reconciliation pass raises a finding, said of the delivered events and the configured timeouts. */
module Timeouts {
  import opened Model
  import opened Reducer
  import opened StatusLaws
  import opened Transitions
  import opened Evidence
  import opened Engine

  /** The latest retry request that a job still open took up. */
  ghost predicate IsLatestAsk(id: JobId, es: seq<Event>, at: Option<Time>) {
    && (at.None? ==> forall i :: !AsksAt(id, es, i))
    && (at.Some? ==>
          && (exists i :: AsksAt(id, es, i) && es[i].eventTime == at.value)
          && (forall i | AsksAt(id, es, i) :: es[i].eventTime <= at.value))
  }

  predicate AsksAt(id: JobId, es: seq<Event>, i: int) {
    && 0 <= i < |es| && es[i].eventType.RetryRequested?
    && !Replay(id, es[..i]).status.Terminal()
  }

  lemma AsksAtNext(id: JobId, es: seq<Event>, e: Event, i: int)
    ensures AsksAt(id, es + [e], i) <==> if i == |es| then AsksRetry(Replay(id, es), e) else AsksAt(id, es, i)
  {
    if 0 <= i <= |es| {
      assert (es + [e])[..i] == es[..i];
    }
  }

  lemma AskNext(id: JobId, es: seq<Event>, e: Event, at: Option<Time>)
    requires IsLatestAsk(id, es, at)
    ensures IsLatestAsk(id, es + [e], if AsksRetry(Replay(id, es), e) then Latest(at, Some(e.eventTime)) else at)
  {
    forall i: int
      ensures AsksAt(id, es + [e], i) <==> if i == |es| then AsksRetry(Replay(id, es), e) else AsksAt(id, es, i)
    {
      AsksAtNext(id, es, e, i);
    }
    if AsksRetry(Replay(id, es), e) {
      assert AsksAt(id, es + [e], |es|);
    }
  }

  lemma {:induction false} RequestedIsLatestAsk(id: JobId, es: seq<Event>)
    ensures IsLatestAsk(id, es, Replay(id, es).retry.requestedAt)
  {
    if es != [] {
      var init, last := es[..|es| - 1], es[|es| - 1];
      assert init + [last] == es;
      RequestedIsLatestAsk(id, init);
      RetryInstants(Replay(id, init), last);
      ReplayOne(id, init, last);
      AskNext(id, init, last, Replay(id, init).retry.requestedAt);
    }
  }

  lemma LatestAskUnique(id: JobId, es: seq<Event>, a: Option<Time>, b: Option<Time>)
    requires IsLatestAsk(id, es, a) && IsLatestAsk(id, es, b)
    ensures a == b
  {
    if a.Some? {
      var i :| AsksAt(id, es, i) && es[i].eventTime == a.value;
      assert b.Some? && a.value <= b.value;
    }
    if b.Some? {
      var k :| AsksAt(id, es, k) && es[k].eventTime == b.value;
      assert a.Some? && b.value <= a.value;
    }
  }

  /** More than the timeout has passed since the extreme instant of these events. */
  ghost predicate WaitsLongerThan(f: Field, es: seq<Event>, timeout: int, now: Time) {
    exists t :: IsExtreme(f, Some(t), es) && now > t + timeout
  }

  ghost predicate AsksLongerThan(id: JobId, es: seq<Event>, timeout: int, now: Time) {
    exists t :: IsLatestAsk(id, es, Some(t)) && now > t + timeout
  }

  predicate Named(es: seq<Event>, n: nat) {
    exists e :: e in es && Touches(e) && AttemptOf(e) == n
  }

  /** The delivered events leave the job in a state that has lasted beyond the configured timeout: an
      unacknowledged request, an execution, an unacknowledged retry request, a schedule without a start, or a
      numbering of attempts with a gap. */
  ghost predicate Overstays(cfg: VisibilityConfig, id: JobId, es: seq<Event>, now: Time, code: FindingCode) {
    var j := Replay(id, es);
    match code
    case SchedulerAckTimeout =>
      && j.status.PendingSubmission?
      && WaitsLongerThan(SubmissionRequestedAt, es, cfg.submissionAcknowledgementTimeout, now)
    case RunningTimeout => j.status.Running? && WaitsLongerThan(StartedAt, es, cfg.runningTimeout, now)
    case RetryAckTimeout =>
      && j.retry.requested && !j.retry.acknowledged
      && AsksLongerThan(id, es, cfg.retryAcknowledgementTimeout, now)
    case StartOverdue =>
      && (j.status.Scheduled? || j.status.AwaitingExecution?)
      && (forall e | e in es :: !e.eventType.ExecutionStarted?)
      && j.description.scheduledAt.Some? && now > j.description.scheduledAt.value + cfg.grace
    case AttemptSequenceGap => exists m: nat, n: nat :: 1 <= m < n && Named(es, n) && !Named(es, m)
    case _ => false
  }

  lemma ExtremeLonger(f: Field, id: JobId, es: seq<Event>, timeout: int, now: Time)
    ensures WaitsLongerThan(f, es, timeout, now) <==> After(Value(f, Replay(id, es)), timeout, now)
  {
    ReplayEvidence(id, es, f);
    var v := Value(f, Replay(id, es));
    if t :| IsExtreme(f, Some(t), es) && now > t + timeout {
      ExtremeUnique(f, Some(t), es, v, es);
    }
    if After(v, timeout, now) {
      assert IsExtreme(f, Some(v.value), es);
    }
  }

  lemma AskLonger(id: JobId, es: seq<Event>, timeout: int, now: Time)
    ensures AsksLongerThan(id, es, timeout, now) <==> After(Replay(id, es).retry.requestedAt, timeout, now)
  {
    RequestedIsLatestAsk(id, es);
    var v := Replay(id, es).retry.requestedAt;
    if t :| IsLatestAsk(id, es, Some(t)) && now > t + timeout {
      LatestAskUnique(id, es, Some(t), v);
    }
    if After(v, timeout, now) {
      assert IsLatestAsk(id, es, Some(v.value));
    }
  }

  lemma NeverStarted(id: JobId, es: seq<Event>)
    ensures Replay(id, es).milestones.startedAt.None? <==> forall e | e in es :: !e.eventType.ExecutionStarted?
  {
    ReplayEvidence(id, es, StartedAt);
    assert Value(StartedAt, Replay(id, es)) == Replay(id, es).milestones.startedAt;
    forall e | e in es ensures Contribution(StartedAt, e).Some? <==> e.eventType.ExecutionStarted? {
    }
  }

  lemma NamedAttempts(id: JobId, es: seq<Event>)
    ensures forall n: nat :: n in Replay(id, es).attempts <==> Named(es, n)
  {
    forall n: nat ensures n in Replay(id, es).attempts <==> Named(es, n) {
      ReplayAttempts(id, es, n);
    }
  }

  lemma GapNamed(id: JobId, es: seq<Event>)
    ensures NotContiguous(Replay(id, es).attempts) <==>
            exists m: nat, n: nat :: 1 <= m < n && Named(es, n) && !Named(es, m)
  {
    NamedAttempts(id, es);
    var attempts := Replay(id, es).attempts;
    if NotContiguous(attempts) {
      var n :| n in attempts && MissingPredecessor(attempts, n);
      var m :| 1 <= m < n && m !in attempts;
      assert Named(es, n) && !Named(es, m);
    }
    if m: nat, n: nat :| 1 <= m < n && Named(es, n) && !Named(es, m) {
      assert n in attempts && m !in attempts && MissingPredecessor(attempts, n);
    }
  }

  /** What a pass observes of a replay is what overstays. */
  lemma ObservesOverstays(cfg: VisibilityConfig, id: JobId, es: seq<Event>, now: Time, code: FindingCode)
    ensures Observes(cfg, Replay(id, es), now, code) <==> Overstays(cfg, id, es, now, code)
  {
    match code {
      case SchedulerAckTimeout =>
        ExtremeLonger(SubmissionRequestedAt, id, es, cfg.submissionAcknowledgementTimeout, now);
      case RunningTimeout => ExtremeLonger(StartedAt, id, es, cfg.runningTimeout, now);
      case RetryAckTimeout => AskLonger(id, es, cfg.retryAcknowledgementTimeout, now);
      case StartOverdue => NeverStarted(id, es);
      case AttemptSequenceGap => GapNamed(id, es);
      case _ =>
    }
  }

  lemma ObservesBare(cfg: VisibilityConfig, j: JobVisibility, k: JobVisibility, now: Time, code: FindingCode)
    requires Bare(j) == Bare(k)
    ensures Observes(cfg, j, now, code) <==> Observes(cfg, k, now, code)
  {
    assert j.attempts == k.attempts && j.status == k.status && j.milestones == k.milestones;
    assert j.retry == k.retry && j.description == k.description;
  }

  // What a pass does to the findings

  lemma {:induction false} PassPrefix(cfg: VisibilityConfig, j: JobVisibility, now: Time, n: nat, code: FindingCode)
    requires n <= |RECONCILED|
    ensures var before, after := j.findings, ReconciledFindings(cfg, j, now, n);
            if code in RECONCILED[..n] && Observes(cfg, j, now, code) then
              && code in after && after[code].active && after[code].resolvedAt.None?
              && after[code].firstObservedAt == if code in before then before[code].firstObservedAt else now
            else (code in after <==> code in before) && (code in before ==> after[code] == before[code])
  {
    if n > 0 {
      PassPrefix(cfg, j, now, n - 1, code);
      assert RECONCILED[..n] == RECONCILED[..n - 1] + [RECONCILED[n - 1]];
    }
  }

  lemma AllReconciled(cfg: VisibilityConfig, j: JobVisibility, now: Time, code: FindingCode)
    ensures Observes(cfg, j, now, code) ==> code in RECONCILED[..|RECONCILED|]
  {
    assert RECONCILED[0] == SchedulerAckTimeout && RECONCILED[1] == RunningTimeout && RECONCILED[2] == RetryAckTimeout;
    assert RECONCILED[3] == StartOverdue && RECONCILED[4] == AttemptSequenceGap;
    assert RECONCILED[..|RECONCILED|] == RECONCILED;
  }

  /** Over any applies and reconciliations: a pass makes a finding active exactly when the job's delivered events
      overstay the finding's own timeout, dates it by the pass when it is new, and touches no other finding;
      what it reports is the same. */
  lemma {:induction false} PassFindsWhatOverstays(cfg: VisibilityConfig, ops: seq<Operation>, now: Time, id: JobId,
                                                  code: FindingCode)
    requires id in AfterOps(cfg, ops).jobs
    ensures var s := AfterOps(cfg, ops);
            var t := ReconcileAll(cfg, s, now);
            var es := Trace(s.events, id);
            && id in t.jobs
            && (Observes(cfg, s.jobs[id], now, code) <==> Overstays(cfg, id, es, now, code))
            && PassFollows(s.jobs[id].findings, t.jobs[id].findings, Overstays(cfg, id, es, now, code), now, code)
  {
    var s := AfterOps(cfg, ops);
    var es := Trace(s.events, id);
    EngineRefinesFold(cfg, ops);
    assert JobRefines(s, id);
    ObservesBare(cfg, s.jobs[id], Replay(id, es), now, code);
    ObservesOverstays(cfg, id, es, now, code);
    AllReconciled(cfg, s.jobs[id], now, code);
    PassPrefix(cfg, s.jobs[id], now, |RECONCILED|, code);
  }

  ghost predicate PassFollows(before: map<FindingCode, Finding>, after: map<FindingCode, Finding>, raised: bool,
                              now: Time, code: FindingCode)
  {
    if raised then
      && code in after && after[code].active && after[code].resolvedAt.None?
      && after[code].firstObservedAt == if code in before then before[code].firstObservedAt else now
    else (code in after <==> code in before) && (code in before ==> after[code] == before[code])
  }

  // Acknowledgements

  /** An acknowledgement ends the wait: at no later instant does the job overstay that timeout, and the finding
      is resolved. */
  lemma {:induction false} AcknowledgedInTime(cfg: VisibilityConfig, id: JobId, es: seq<Event>, e: Event, now: Time)
    ensures e.eventType.SubmissionAcknowledged? ==>
              && !Overstays(cfg, id, es + [e], now, SchedulerAckTimeout)
              && !Active(Replay(id, es + [e]).findings, SchedulerAckTimeout)
    ensures e.eventType.RetryAcknowledged? ==>
              && !Overstays(cfg, id, es + [e], now, RetryAckTimeout)
              && !Active(Replay(id, es + [e]).findings, RetryAckTimeout)
  {
    var j := Replay(id, es);
    ReplayOne(id, es, e);
    ReplayAudited(id, es);
    if e.eventType.SubmissionAcknowledged? {
      FindingColumns(j, e, SchedulerAckTimeout);
      KeptStatus(j, e);
      if j.status.PendingSubmission? {
        EnteredStatus(j, e, Scheduled);
      }
    }
    if e.eventType.RetryAcknowledged? {
      FindingColumns(j, e, RetryAckTimeout);
      AcknowledgedMark(j, e);
    }
  }
}

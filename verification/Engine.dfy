/** The in-memory engine: exact-duplicate filtering, optimistic versions and reconciliation around the reducer. */
module Engine {
  import opened Model
  import opened Reducer
  import opened StatusLaws

  /** Timeouts in seconds. */
  datatype VisibilityConfig = VisibilityConfig(
    pollInterval: int,
    grace: int,
    runningTimeout: int,
    retryAcknowledgementTimeout: int,
    submissionAcknowledgementTimeout: int)

  datatype EngineState = EngineState(
    jobs: map<JobId, JobVisibility>,
    eventIds: set<EventId>,
    events: seq<Event>)

  datatype ApplyResult = Decided(decision: Decision) | VersionConflict(actual: nat)

  /** The decision the reducer reports for an event. */
  function Verdict(job: JobVisibility, e: Event): DecisionKind {
    if IsSemanticDuplicate(job, e) then SemanticDuplicate
    else if Handle(job.(description := Describe(job.description, e)), e).changed then Applied else Ignored
  }

  // One delivery

  function Current(s: EngineState, id: JobId): JobVisibility {
    if id in s.jobs then s.jobs[id] else NewJob(id)
  }

  predicate Conflicts(s: EngineState, e: Event, expected: Option<nat>) {
    e.eventId !in s.eventIds && expected.Some? && expected.value != Current(s, e.jobId).version
  }

  function NoteDuplicate(job: JobVisibility, id: EventId): JobVisibility {
    job.(decisions := job.decisions + [Decision(id, ExactDuplicate)])
  }

  function Deliver(s: EngineState, e: Event, expected: Option<nat>): EngineState {
    if e.eventId in s.eventIds then
      if e.jobId in s.jobs
      then s.(jobs := s.jobs[e.jobId := NoteDuplicate(s.jobs[e.jobId], e.eventId)])
      else s
    else if Conflicts(s, e, expected) then s
    else EngineState(s.jobs[e.jobId := Reduce(Current(s, e.jobId), e)], s.eventIds + {e.eventId}, s.events + [e])
  }

  /** The decision on a delivery that no version check rejects. */
  function DecisionOn(s: EngineState, e: Event): Decision {
    Decision(e.eventId, if e.eventId in s.eventIds then ExactDuplicate else Verdict(Current(s, e.jobId), e))
  }

  /** The decision reported is the one the aggregate records. */
  lemma VerdictIsRecorded(j: JobVisibility, e: Event)
    ensures Reduce(j, e).decisions == j.decisions + [Decision(e.eventId, Verdict(j, e))]
  {
    HandleLog(j.(description := Describe(j.description, e)), e);
  }

  /** A repeated delivery changes nothing but the job's decision log, which notes it. */
  lemma DuplicateIsNoted(s: EngineState, e: Event, expected: Option<nat>, id: JobId)
    requires e.eventId in s.eventIds
    ensures var t := Deliver(s, e, expected);
            && t.events == s.events && t.eventIds == s.eventIds && t.jobs.Keys == s.jobs.Keys
            && (id in s.jobs && id != e.jobId ==> t.jobs[id] == s.jobs[id])
            && (e.jobId in s.jobs ==>
                  && t.jobs[e.jobId].decisions == s.jobs[e.jobId].decisions + [Decision(e.eventId, ExactDuplicate)]
                  && t.jobs[e.jobId].(decisions := []) == s.jobs[e.jobId].(decisions := []))
  {
  }

  // Reconciliation

  predicate After(at: Option<Time>, timeout: int, now: Time) {
    at.Some? && now - at.value > timeout
  }

  predicate IsOverdue(cfg: VisibilityConfig, job: JobVisibility, now: Time) {
    && job.description.scheduledAt.Some? && job.milestones.startedAt.None?
    && (job.status.Scheduled? || job.status.AwaitingExecution?)
    && now > job.description.scheduledAt.value + cfg.grace
  }

  predicate NotContiguous(attempts: map<nat, Attempt>) {
    exists n | n in attempts :: MissingPredecessor(attempts, n)
  }

  /** The condition under which a pass observes a finding. */
  predicate Observes(cfg: VisibilityConfig, job: JobVisibility, now: Time, code: FindingCode) {
    match code
    case SchedulerAckTimeout =>
      && job.status.PendingSubmission?
      && After(job.milestones.submissionRequestedAt, cfg.submissionAcknowledgementTimeout, now)
    case RunningTimeout => job.status.Running? && After(job.milestones.startedAt, cfg.runningTimeout, now)
    case RetryAckTimeout =>
      && job.retry.requested && !job.retry.acknowledged
      && After(job.retry.requestedAt, cfg.retryAcknowledgementTimeout, now)
    case StartOverdue => IsOverdue(cfg, job, now)
    case AttemptSequenceGap => NotContiguous(job.attempts)
    case _ => false
  }

  const RECONCILED: seq<FindingCode> :=
    [SchedulerAckTimeout, RunningTimeout, RetryAckTimeout, StartOverdue, AttemptSequenceGap]

  /** The findings after the first `n` checks of a pass over one job. */
  function ReconciledFindings(cfg: VisibilityConfig, job: JobVisibility, now: Time, n: nat): map<FindingCode, Finding>
    requires n <= |RECONCILED|
  {
    if n == 0 then job.findings
    else RaiseIf(Observes(cfg, job, now, RECONCILED[n - 1]), ReconciledFindings(cfg, job, now, n - 1),
                 RECONCILED[n - 1], now)
  }

  function ReconcileJob(cfg: VisibilityConfig, job: JobVisibility, now: Time): JobVisibility {
    job.(findings := ReconciledFindings(cfg, job, now, |RECONCILED|))
  }

  function ReconcileAll(cfg: VisibilityConfig, s: EngineState, now: Time): EngineState {
    s.(jobs := map id | id in s.jobs :: ReconcileJob(cfg, s.jobs[id], now))
  }

  // Operation sequences

  datatype Operation = Apply(event: Event, expected: Option<nat>) | Reconcile(now: Time)

  function Operate(cfg: VisibilityConfig): (EngineState, Operation) -> EngineState {
    (s: EngineState, op: Operation) =>
      match op
      case Apply(e, expected) => Deliver(s, e, expected)
      case Reconcile(now) => ReconcileAll(cfg, s, now)
  }

  const FRESH: EngineState := EngineState(map[], {}, [])

  function AfterOps(cfg: VisibilityConfig, ops: seq<Operation>): EngineState {
    Fold(Operate(cfg), FRESH, ops)
  }

  // The engine refines the fold

  function RealDecisions(ds: seq<Decision>): seq<Decision> {
    if ds == [] then []
    else
      var before, last := RealDecisions(ds[..|ds| - 1]), ds[|ds| - 1];
      if last.kind.ExactDuplicate? then before else before + [last]
  }

  function Bare(job: JobVisibility): JobVisibility {
    job.(findings := map[], decisions := [])
  }

  /** Equal except for findings and for exact-duplicate entries in the decision log. */
  predicate SameCore(j: JobVisibility, k: JobVisibility) {
    Bare(j) == Bare(k) && RealDecisions(j.decisions) == RealDecisions(k.decisions)
  }

  lemma HandleBareAttempt(j: JobVisibility, k: JobVisibility, e: Event)
    requires Bare(j) == Bare(k) && Touches(e)
    ensures Bare(Handle(j, e).job) == Bare(Handle(k, e).job) && Handle(j, e).changed == Handle(k, e).changed
  {
    match e.eventType {
      case ItemRetrieved =>
      case ExecutionStarted =>
      case ExecutionSucceeded =>
      case ExecutionFailed =>
    }
  }

  lemma HandleBareOther(j: JobVisibility, k: JobVisibility, e: Event)
    requires Bare(j) == Bare(k) && !Touches(e)
    ensures Bare(Handle(j, e).job) == Bare(Handle(k, e).job) && Handle(j, e).changed == Handle(k, e).changed
  {
    match e.eventType {
      case JobCreated =>
      case SubmissionRequested =>
      case SubmissionAcknowledged =>
      case SubmissionFailed =>
      case RetryRequested =>
      case RetryAcknowledged =>
      case RetryRejected =>
      case RetriesExhausted =>
      case JobCancelled =>
    }
  }

  /** What a handler does to anything but the findings does not depend on the findings or the log. */
  lemma HandleBare(j: JobVisibility, k: JobVisibility, e: Event)
    requires Bare(j) == Bare(k)
    ensures Bare(Handle(j, e).job) == Bare(Handle(k, e).job) && Handle(j, e).changed == Handle(k, e).changed
  {
    if Touches(e) {
      HandleBareAttempt(j, k, e);
    } else {
      HandleBareOther(j, k, e);
    }
  }

  lemma ConcludeCore(j: JobVisibility, k: JobVisibility, kind: DecisionKind, e: Event)
    requires SameCore(j, k) && !kind.ExactDuplicate?
    ensures SameCore(Conclude(j, kind, e), Conclude(k, kind, e))
  {
    var d := Decision(e.eventId, kind);
    assert (j.decisions + [d])[..|j.decisions|] == j.decisions;
    assert (k.decisions + [d])[..|k.decisions|] == k.decisions;
  }

  lemma ReduceCore(j: JobVisibility, k: JobVisibility, e: Event)
    requires SameCore(j, k)
    ensures SameCore(Reduce(j, e), Reduce(k, e))
  {
    if IsSemanticDuplicate(j, e) {
      ConcludeCore(j, k, SemanticDuplicate, e);
    } else {
      var jd := j.(description := Describe(j.description, e));
      var kd := k.(description := Describe(k.description, e));
      HandleBare(jd, kd, e);
      HandleLog(jd, e);
      HandleLog(kd, e);
      ConcludeCore(Handle(jd, e).job, Handle(kd, e).job, if Handle(jd, e).changed then Applied else Ignored, e);
    }
  }

  lemma DuplicateKept(j: JobVisibility, id: EventId)
    requires Audited(j)
    ensures SameCore(NoteDuplicate(j, id), j) && Audited(NoteDuplicate(j, id)) && HistoryKept(j, NoteDuplicate(j, id))
  {
    assert (j.decisions + [Decision(id, ExactDuplicate)])[..|j.decisions|] == j.decisions;
  }

  lemma {:induction false} FindingsReconciled(cfg: VisibilityConfig, j: JobVisibility, now: Time, n: nat)
    requires n <= |RECONCILED| && Consistent(j.findings)
    ensures Consistent(ReconciledFindings(cfg, j, now, n))
    ensures FindingsKept(j.findings, ReconciledFindings(cfg, j, now, n))
    ensures forall i | 0 <= i < n && Observes(cfg, j, now, RECONCILED[i]) ::
              Active(ReconciledFindings(cfg, j, now, n), RECONCILED[i])
  {
    if n > 0 {
      FindingsReconciled(cfg, j, now, n - 1);
      var code := RECONCILED[n - 1];
      RaiseKept(Observes(cfg, j, now, code), ReconciledFindings(cfg, j, now, n - 1), code, now);
    }
  }

  lemma ReconcileKept(cfg: VisibilityConfig, j: JobVisibility, now: Time)
    requires Audited(j)
    ensures SameCore(ReconcileJob(cfg, j, now), j)
    ensures Audited(ReconcileJob(cfg, j, now)) && HistoryKept(j, ReconcileJob(cfg, j, now))
  {
    FindingsReconciled(cfg, j, now, |RECONCILED|);
  }

  ghost predicate JobRefines(s: EngineState, id: JobId) {
    id in s.jobs && SameCore(s.jobs[id], Replay(id, Trace(s.events, id))) && Audited(s.jobs[id])
  }

  /** The engine's dictionaries agree with its own event log. */
  ghost predicate Refines(s: EngineState) {
    && (forall id :: id in s.jobs <==> Trace(s.events, id) != [])
    && (forall id | id in s.jobs :: JobRefines(s, id))
  }

  ghost predicate JobKept(s: EngineState, t: EngineState, id: JobId) {
    id in s.jobs ==> id in t.jobs && HistoryKept(s.jobs[id], t.jobs[id])
  }

  lemma {:induction false} CurrentRefines(s: EngineState, id: JobId)
    requires Refines(s)
    ensures SameCore(Current(s, id), Replay(id, Trace(s.events, id))) && Audited(Current(s, id))
  {
    if id in s.jobs {
      assert JobRefines(s, id);
    }
  }

  lemma {:induction false} LogOne(events: seq<Event>, e: Event, id: JobId)
    ensures Trace(events + [e], id) == if e.jobId == id then Trace(events, id) + [e] else Trace(events, id)
  {
    assert (events + [e])[..|events|] == events;
  }

  lemma AcceptJob(j: JobVisibility, id: JobId, es: seq<Event>, e: Event)
    requires SameCore(j, Replay(id, es)) && Audited(j)
    ensures SameCore(Reduce(j, e), Replay(id, es + [e])) && Audited(Reduce(j, e)) && HistoryKept(j, Reduce(j, e))
  {
    ReduceCore(j, Replay(id, es), e);
    ReduceAudited(j, e);
    ReplayOne(id, es, e);
  }

  /** Replacing one job's aggregate and extending the log by its event. */
  lemma {:induction false} PutJob(s: EngineState, t: EngineState, id: JobId, next: JobVisibility, log: seq<Event>,
                                  other: JobId)
    requires Refines(s) && t.jobs == s.jobs[id := next]
    requires Trace(t.events, id) == log && log != []
    requires SameCore(next, Replay(id, log)) && Audited(next) && HistoryKept(Current(s, id), next)
    requires other != id ==> Trace(t.events, other) == Trace(s.events, other)
    ensures other in t.jobs <==> Trace(t.events, other) != []
    ensures other in t.jobs ==> JobRefines(t, other)
    ensures JobKept(s, t, other)
  {
    if other != id {
      assert other in s.jobs ==> JobRefines(s, other);
    }
  }

  lemma {:induction false} DeliverJob(s: EngineState, e: Event, expected: Option<nat>, id: JobId)
    requires Refines(s)
    ensures var t := Deliver(s, e, expected);
            && (id in t.jobs <==> Trace(t.events, id) != [])
            && (id in t.jobs ==> JobRefines(t, id))
            && JobKept(s, t, id)
  {
    var owner := e.jobId;
    var j := Current(s, owner);
    var log := Trace(s.events, owner);
    CurrentRefines(s, owner);
    if e.eventId !in s.eventIds && !Conflicts(s, e, expected) {
      AcceptJob(j, owner, log, e);
      LogOne(s.events, e, owner);
      LogOne(s.events, e, id);
      PutJob(s, Deliver(s, e, expected), owner, Reduce(j, e), log + [e], id);
    } else if e.eventId in s.eventIds && owner in s.jobs {
      DuplicateKept(j, e.eventId);
      PutJob(s, Deliver(s, e, expected), owner, NoteDuplicate(j, e.eventId), log, id);
    } else {
      assert id in s.jobs ==> JobRefines(s, id);
    }
  }

  lemma ReconcileOneJob(cfg: VisibilityConfig, s: EngineState, now: Time, id: JobId)
    requires Refines(s) && id in s.jobs
    ensures JobRefines(ReconcileAll(cfg, s, now), id) && JobKept(s, ReconcileAll(cfg, s, now), id)
  {
    assert JobRefines(s, id);
    ReconcileKept(cfg, s.jobs[id], now);
  }

  lemma OperateRefines(cfg: VisibilityConfig, s: EngineState, op: Operation)
    requires Refines(s)
    ensures Refines(Operate(cfg)(s, op))
    ensures forall id :: JobKept(s, Operate(cfg)(s, op), id)
  {
    var t := Operate(cfg)(s, op);
    match op {
      case Apply(e, expected) =>
        forall id
          ensures id in t.jobs <==> Trace(t.events, id) != []
          ensures id in t.jobs ==> JobRefines(t, id)
          ensures JobKept(s, t, id)
        {
          DeliverJob(s, e, expected, id);
        }
      case Reconcile(now) =>
        forall id | id in s.jobs ensures JobRefines(t, id) && JobKept(s, t, id) {
          ReconcileOneJob(cfg, s, now, id);
        }
    }
  }

  /** Refinement: after any operations, every job is the fold of the reducer over its own logged events,
      except for findings and exact-duplicate entries; and every job satisfies the audit invariant. */
  lemma {:induction false} EngineRefinesFold(cfg: VisibilityConfig, ops: seq<Operation>)
    ensures Refines(AfterOps(cfg, ops))
  {
    if ops != [] {
      EngineRefinesFold(cfg, ops[..|ops| - 1]);
      OperateRefines(cfg, AfterOps(cfg, ops[..|ops| - 1]), ops[|ops| - 1]);
    }
  }

  // The log is what was delivered, each event once

  predicate Seen(es: seq<Event>, id: EventId) {
    exists e | e in es :: e.eventId == id
  }

  function FirstOccurrences(es: seq<Event>): seq<Event> {
    if es == [] then []
    else
      var before, last := FirstOccurrences(es[..|es| - 1]), es[|es| - 1];
      if Seen(before, last.eventId) then before else before + [last]
  }

  /** The delivered events, without the deliveries a version check rejects. */
  function Deliveries(cfg: VisibilityConfig, ops: seq<Operation>): seq<Event> {
    if ops == [] then []
    else
      var init, last := ops[..|ops| - 1], ops[|ops| - 1];
      if last.Apply? && !Conflicts(AfterOps(cfg, init), last.event, last.expected)
      then Deliveries(cfg, init) + [last.event]
      else Deliveries(cfg, init)
  }

  lemma {:induction false} LogIsFirstOccurrences(cfg: VisibilityConfig, ops: seq<Operation>)
    ensures AfterOps(cfg, ops).events == FirstOccurrences(Deliveries(cfg, ops))
    ensures forall x :: x in AfterOps(cfg, ops).eventIds <==> Seen(AfterOps(cfg, ops).events, x)
  {
    if ops != [] {
      var init, last := ops[..|ops| - 1], ops[|ops| - 1];
      LogIsFirstOccurrences(cfg, init);
      var s := AfterOps(cfg, init);
      if last.Apply? && !Conflicts(s, last.event, last.expected) {
        var d := Deliveries(cfg, init);
        assert (d + [last.event])[..|d|] == d;
        assert forall x :: Seen(s.events + [last.event], x) <==> Seen(s.events, x) || x == last.event.eventId by {
          assert last.event in s.events + [last.event];
        }
      }
    }
  }

  /** A delivery the version check rejects changes nothing. */
  lemma ConflictChangesNothing(s: EngineState, e: Event, expected: Option<nat>)
    requires Conflicts(s, e, expected)
    ensures Deliver(s, e, expected) == s
  {
  }

  lemma HistoryTransitive(a: JobVisibility, b: JobVisibility, c: JobVisibility)
    requires HistoryKept(a, b) && HistoryKept(b, c)
    ensures HistoryKept(a, c)
  {
  }

  lemma KeptStep(cfg: VisibilityConfig, start: EngineState, mid: EngineState, op: Operation, id: JobId)
    requires id in start.jobs && JobKept(start, mid, id) && Refines(mid)
    ensures JobKept(start, Operate(cfg)(mid, op), id)
  {
    OperateRefines(cfg, mid, op);
    assert JobKept(mid, Operate(cfg)(mid, op), id);
    HistoryTransitive(start.jobs[id], mid.jobs[id], Operate(cfg)(mid, op).jobs[id]);
  }

  lemma {:induction false} KeptFrom(cfg: VisibilityConfig, s: EngineState, more: seq<Operation>, id: JobId)
    requires Refines(s) && id in s.jobs
    ensures Refines(Fold(Operate(cfg), s, more)) && JobKept(s, Fold(Operate(cfg), s, more), id)
  {
    if more != [] {
      var init, last := more[..|more| - 1], more[|more| - 1];
      KeptFrom(cfg, s, init, id);
      OperateRefines(cfg, Fold(Operate(cfg), s, init), last);
      KeptStep(cfg, s, Fold(Operate(cfg), s, init), last, id);
    }
  }

  /** Whatever operations follow, no job loses a finding, a first observation, a violation or a success. */
  lemma EngineKeepsHistory(cfg: VisibilityConfig, ops: seq<Operation>, more: seq<Operation>, id: JobId)
    requires id in AfterOps(cfg, ops).jobs
    ensures JobKept(AfterOps(cfg, ops), AfterOps(cfg, ops + more), id)
  {
    EngineRefinesFold(cfg, ops);
    KeptFrom(cfg, AfterOps(cfg, ops), more, id);
    FoldAppend(Operate(cfg), FRESH, ops, more);
  }

  /** A pass under way: the jobs in `rest` are still to be checked. */
  ghost predicate Reconciling(cfg: VisibilityConfig, before: map<JobId, JobVisibility>, jobs: map<JobId, JobVisibility>,
                              rest: set<JobId>, observed: set<(JobId, FindingCode)>, now: Time)
  {
    && rest <= before.Keys == jobs.Keys
    && (forall id | id in before :: jobs[id] == if id in rest then before[id] else ReconcileJob(cfg, before[id], now))
    && (forall id, code ::
          (id, code) in observed <==> id in before && id !in rest && Observes(cfg, before[id], now, code))
  }

  lemma ReconcilingNext(cfg: VisibilityConfig, before: map<JobId, JobVisibility>, jobs: map<JobId, JobVisibility>,
                        rest: set<JobId>, observed: set<(JobId, FindingCode)>, now: Time, id: JobId,
                        raised: set<FindingCode>)
    requires Reconciling(cfg, before, jobs, rest, observed, now) && id in rest
    requires forall code :: code in raised <==> Observes(cfg, before[id], now, code)
    ensures Reconciling(cfg, before, jobs[id := ReconcileJob(cfg, jobs[id], now)], rest - {id},
                        observed + (set code | code in raised :: (id, code)), now)
  {
  }

  // The engine itself

  datatype RetryResult = Settled(result: ApplyResult) | UnknownJob

  class VisibilityEngine {
    const config: VisibilityConfig
    var jobs: map<JobId, JobVisibility>
    var eventIds: set<EventId>
    var events: seq<Event>

    function State(): EngineState
      reads this
    {
      EngineState(jobs, eventIds, events)
    }

    constructor (config: VisibilityConfig)
      ensures State() == FRESH && this.config == config
    {
      this.config := config;
      this.jobs := map[];
      this.eventIds := {};
      this.events := [];
    }

    method Apply(e: Event, expected: Option<nat>) returns (result: ApplyResult)
      modifies this
      ensures State() == Deliver(old(State()), e, expected)
      ensures result == if Conflicts(old(State()), e, expected)
                        then VersionConflict(Current(old(State()), e.jobId).version)
                        else Decided(DecisionOn(old(State()), e))
      ensures result.VersionConflict? <==>
                && e.eventId !in old(eventIds) && expected.Some?
                && expected.value != if e.jobId in old(jobs) then old(jobs)[e.jobId].version else 0
    {
      if e.eventId in eventIds {
        if e.jobId in jobs {
          jobs := jobs[e.jobId := NoteDuplicate(jobs[e.jobId], e.eventId)];
        }
        return Decided(Decision(e.eventId, ExactDuplicate));
      }
      var current := if e.jobId in jobs then jobs[e.jobId] else NewJob(e.jobId);
      if expected.Some? && expected.value != current.version {
        return VersionConflict(current.version);
      }
      eventIds := eventIds + {e.eventId};
      events := events + [e];
      jobs := jobs[e.jobId := Reduce(current, e)];
      result := Decided(Decision(e.eventId, Verdict(current, e)));
    }

    /** Reload the version after each conflict and try again; nobody else writes in between here. */
    method ApplyWithRetry(e: Event, expected: nat, retries: nat) returns (result: RetryResult)
      modifies this
      ensures var conflict := Conflicts(old(State()), e, Some(expected));
              var known := e.jobId in old(jobs);
              && State() == (if conflict && (retries == 0 || !known) then old(State())
                             else Deliver(old(State()), e, None))
              && result == if !conflict then Settled(Decided(DecisionOn(old(State()), e)))
                           else if retries == 0 then Settled(VersionConflict(Current(old(State()), e.jobId).version))
                           else if !known then UnknownJob
                           else Settled(Decided(DecisionOn(old(State()), e)))
    {
      var version := expected;
      for attempt := 0 to retries + 1
        invariant State() == old(State())
        invariant attempt == 0 ==> version == expected
        invariant attempt > 0 ==> retries > 0 && Conflicts(State(), e, Some(expected))
        invariant attempt > 0 ==> e.jobId in jobs && version == jobs[e.jobId].version
        invariant attempt <= 1 && attempt <= retries
      {
        var outcome := Apply(e, Some(version));
        if outcome.Decided? || attempt == retries {
          return Settled(outcome);
        }
        if e.jobId !in jobs {
          return UnknownJob;
        }
        version := jobs[e.jobId].version;
      }
      assert false;
      result := UnknownJob;
    }

    /** The checks of a pass over one job, in the source's order. */
    method ReconcileOne(id: JobId, now: Time) returns (raised: set<FindingCode>)
      requires id in jobs
      modifies this
      ensures State() == old(State()).(jobs := old(jobs)[id := ReconcileJob(config, old(jobs)[id], now)])
      ensures forall code :: code in raised <==> Observes(config, old(jobs)[id], now, code)
    {
      ghost var before := jobs;
      var job := jobs[id];
      raised := {};
      for i := 0 to |RECONCILED|
        invariant job == before[id].(findings := ReconciledFindings(config, before[id], now, i))
        invariant forall code :: code in raised <==> code in RECONCILED[..i] && Observes(config, before[id], now, code)
      {
        var code := RECONCILED[i];
        if Observes(config, job, now, code) {
          job := job.(findings := Raise(job.findings, code, now));
          raised := raised + {code};
        }
      }
      assert RECONCILED[..|RECONCILED|] == RECONCILED;
      jobs := jobs[id := job];
    }

    method Reconcile(now: Time) returns (observed: set<(JobId, FindingCode)>)
      modifies this
      ensures State() == ReconcileAll(config, old(State()), now)
      ensures forall id, code ::
                (id, code) in observed <==> id in old(jobs) && Observes(config, old(jobs)[id], now, code)
    {
      observed := {};
      var rest := jobs.Keys;
      ghost var before := jobs;
      while rest != {}
        invariant Reconciling(config, before, jobs, rest, observed, now)
        invariant eventIds == old(eventIds) && events == old(events)
        decreases rest
      {
        var id :| id in rest;
        ghost var here := jobs;
        var raised := ReconcileOne(id, now);
        ReconcilingNext(config, before, here, rest, observed, now, id, raised);
        observed := observed + (set code | code in raised :: (id, code));
        rest := rest - {id};
      }
      assert jobs == map id | id in before :: ReconcileJob(config, before[id], now);
    }
  }
}

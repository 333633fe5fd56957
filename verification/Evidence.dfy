/** Evidence timestamps and attempt numbers do not depend on delivery order, duplication or replay.

Each evidence field is, after any replay, the extreme of what the delivered events contribute to it;
so two deliveries of the same set of events agree on all of them.
*/
module Evidence {
  import opened Model
  import opened Reducer

  datatype Field =
    | CreatedAt
    | SubmissionRequestedAt
    | AcknowledgedAt
    | RetrievedAt
    | StartedAt
    | AttemptRetrievedAt(n: nat)
    | AttemptStartedAt(m: nat)
    | LastEventTime
    | DataAsOf

  function Value(f: Field, job: JobVisibility): Option<Time> {
    match f
    case CreatedAt => job.milestones.createdAt
    case SubmissionRequestedAt => job.milestones.submissionRequestedAt
    case AcknowledgedAt => job.milestones.acknowledgedAt
    case RetrievedAt => job.milestones.retrievedAt
    case StartedAt => job.milestones.startedAt
    case AttemptRetrievedAt(n) => if n in job.attempts then job.attempts[n].retrievedAt else None
    case AttemptStartedAt(n) => if n in job.attempts then job.attempts[n].startedAt else None
    case LastEventTime => job.freshness.lastEventTime
    case DataAsOf => job.freshness.dataAsOf
  }

  /** The instant of the poll that retrieved the item, or of the event when it names none. */
  function ItemTime(e: Event): Time {
    match e.pollTime
    case Some(polled) => polled
    case None => e.eventTime
  }

  /** What one event says about a field, independently of any aggregate. */
  function Contribution(f: Field, e: Event): Option<Time> {
    match f
    case CreatedAt => if e.eventType.JobCreated? then Some(e.eventTime) else None
    case SubmissionRequestedAt => if e.eventType.SubmissionRequested? then Some(e.eventTime) else None
    case AcknowledgedAt => if e.eventType.SubmissionAcknowledged? then Some(e.eventTime) else None
    case RetrievedAt => if e.eventType.ItemRetrieved? then Some(ItemTime(e)) else None
    case StartedAt => if e.eventType.ExecutionStarted? then Some(e.eventTime) else None
    case AttemptRetrievedAt(n) =>
      if e.eventType.ItemRetrieved? && AttemptOf(e) == n then Some(ItemTime(e)) else None
    case AttemptStartedAt(n) =>
      if e.eventType.ExecutionStarted? && AttemptOf(e) == n then Some(e.eventTime) else None
    case LastEventTime => Some(e.eventTime)
    case DataAsOf => Some(e.ingestionTime)
  }

  predicate KeepsLatest(f: Field) {
    f.LastEventTime? || f.DataAsOf?
  }

  function Combine(f: Field, left: Option<Time>, right: Option<Time>): Option<Time> {
    if KeepsLatest(f) then Latest(left, right) else Earliest(left, right)
  }

  predicate Beats(f: Field, t: Time, u: Time) {
    if KeepsLatest(f) then u <= t else t <= u
  }

  /** `best` is the extreme contribution of `es`, and absent exactly when nothing contributes. */
  ghost predicate IsExtreme(f: Field, best: Option<Time>, es: seq<Event>) {
    && (best.None? ==> forall e | e in es :: Contribution(f, e).None?)
    && (best.Some? ==>
          && (exists e :: e in es && Contribution(f, e) == best)
          && (forall e | e in es && Contribution(f, e).Some? :: Beats(f, best.value, Contribution(f, e).value)))
  }

  /** The attempts an event brings into existence. */
  function Touched(e: Event): set<nat> {
    if Touches(e) then {AttemptOf(e)} else {}
  }

  predicate OfAttempt(f: Field) {
    f.AttemptRetrievedAt? || f.AttemptStartedAt?
  }

  lemma HandleMilestone(f: Field, job: JobVisibility, e: Event)
    requires !KeepsLatest(f) && !OfAttempt(f)
    ensures Value(f, Handle(job, e).job) == Combine(f, Value(f, job), Contribution(f, e))
  {
    match e.eventType {
      case ItemRetrieved =>
      case ExecutionStarted =>
      case ExecutionSucceeded =>
      case ExecutionFailed =>
      case _ =>
    }
  }

  lemma HandleAttemptTime(f: Field, job: JobVisibility, e: Event)
    requires OfAttempt(f)
    ensures Value(f, Handle(job, e).job) == Combine(f, Value(f, job), Contribution(f, e))
  {
    match e.eventType {
      case ItemRetrieved =>
      case ExecutionStarted =>
      case ExecutionSucceeded =>
      case ExecutionFailed =>
      case _ =>
    }
  }

  lemma HandleKeys(job: JobVisibility, e: Event)
    ensures Handle(job, e).job.freshness == job.freshness
    ensures Handle(job, e).job.attempts.Keys == job.attempts.Keys + Touched(e)
  {
    match e.eventType {
      case ItemRetrieved =>
      case ExecutionStarted =>
      case ExecutionSucceeded =>
      case ExecutionFailed =>
      case _ =>
    }
  }

  lemma ReduceEvidence(f: Field, job: JobVisibility, e: Event)
    ensures Value(f, Reduce(job, e)) == Combine(f, Value(f, job), Contribution(f, e))
    ensures Reduce(job, e).attempts.Keys == job.attempts.Keys + Touched(e)
  {
    if !IsSemanticDuplicate(job, e) {
      var described := job.(description := Describe(job.description, e));
      HandleKeys(described, e);
      if OfAttempt(f) {
        HandleAttemptTime(f, described, e);
      } else if !KeepsLatest(f) {
        HandleMilestone(f, described, e);
      }
    }
  }

  lemma ExtremeStep(f: Field, best: Option<Time>, es: seq<Event>, e: Event)
    requires IsExtreme(f, best, es)
    ensures IsExtreme(f, Combine(f, best, Contribution(f, e)), es + [e])
  {
    var next := Combine(f, best, Contribution(f, e));
    assert forall x :: x in es + [e] <==> x in es || x == e;
    if next.Some? {
      if next == Contribution(f, e) {
        assert e in es + [e];
      } else {
        var w :| w in es && Contribution(f, w) == best;
        assert w in es + [e];
      }
    }
  }

  /** Every evidence field of a replay is the extreme contribution of the replayed events. */
  lemma {:induction false} ReplayEvidence(id: JobId, es: seq<Event>, f: Field)
    ensures IsExtreme(f, Value(f, Replay(id, es)), es)
  {
    if es != [] {
      var init, last := es[..|es| - 1], es[|es| - 1];
      ReplayEvidence(id, init, f);
      ReduceEvidence(f, Replay(id, init), last);
      ExtremeStep(f, Value(f, Replay(id, init)), init, last);
      assert init + [last] == es;
    }
  }

  /** The attempts of a replay are exactly those some event names. */
  lemma {:induction false} ReplayAttempts(id: JobId, es: seq<Event>, n: nat)
    ensures n in Replay(id, es).attempts <==> exists e :: e in es && n in Touched(e)
  {
    if es != [] {
      var init, last := es[..|es| - 1], es[|es| - 1];
      ReplayAttempts(id, init, n);
      ReduceEvidence(CreatedAt, Replay(id, init), last);
      assert init + [last] == es;
      assert forall x :: x in es <==> x in init || x == last;
    }
  }

  lemma ExtremeUnique(f: Field, a: Option<Time>, es: seq<Event>, b: Option<Time>, fs: seq<Event>)
    requires IsExtreme(f, a, es) && IsExtreme(f, b, fs)
    requires forall e :: e in es <==> e in fs
    ensures a == b
  {
    if a.Some? {
      var w :| w in es && Contribution(f, w) == a;
      assert w in fs;
    }
    if b.Some? {
      var w :| w in fs && Contribution(f, w) == b;
      assert w in es;
    }
  }

  /** Any reordering, and any duplication, of the same events leaves every evidence field and the set
      of attempt numbers unchanged. */
  lemma EvidenceOrderIndependent(id: JobId, es: seq<Event>, fs: seq<Event>)
    requires forall e :: e in es <==> e in fs
    ensures forall f :: Value(f, Replay(id, es)) == Value(f, Replay(id, fs))
    ensures Replay(id, es).attempts.Keys == Replay(id, fs).attempts.Keys
  {
    forall f ensures Value(f, Replay(id, es)) == Value(f, Replay(id, fs)) {
      ReplayEvidence(id, es, f);
      ReplayEvidence(id, fs, f);
      ExtremeUnique(f, Value(f, Replay(id, es)), es, Value(f, Replay(id, fs)), fs);
    }
    forall n: nat ensures n in Replay(id, es).attempts <==> n in Replay(id, fs).attempts {
      ReplayAttempts(id, es, n);
      ReplayAttempts(id, fs, n);
    }
  }
}

/** What a query shows of an aggregate at an instant: the derived status and the delay classification. */
module Responses {
  import opened Model
  import opened Engine

  datatype Delay =
    | NotYetEligible
    | AwaitingPollWindow
    | PossibleBatchBacklog
    | RetrievedAwaitingWorker
    | ExecutionOverdue

  function DerivedStatus(cfg: VisibilityConfig, job: JobVisibility, now: Time): Status {
    if job.status.Terminal() || job.status.Running? || job.status.RetryPending? || job.status.RetryScheduled?
    then job.status
    else if (job.status.Scheduled? || job.status.AwaitingExecution?) && job.description.scheduledAt.Some? then
      if IsOverdue(cfg, job, now) then Overdue
      else if now >= job.description.scheduledAt.value then AwaitingExecution
      else job.status
    else job.status
  }

  function DelayOf(cfg: VisibilityConfig, job: JobVisibility, now: Time, status: Status): Option<Delay> {
    if job.description.scheduledAt.None? || job.milestones.startedAt.Some? then None
    else
      var due := job.description.scheduledAt.value;
      if now < due then Some(NotYetEligible)
      else if status.Overdue? then Some(ExecutionOverdue)
      else if job.milestones.retrievedAt.Some? then Some(RetrievedAwaitingWorker)
      else if now < due + cfg.pollInterval then Some(AwaitingPollWindow)
      else Some(PossibleBatchBacklog)
  }

  /** The columns of a job_visibility row; `shown` and `delay` are taken at the aggregate's own data_as_of. */
  datatype View = View(
    correlationId: string,
    jobType: string,
    recorded: Status,
    shown: Status,
    delay: Option<Delay>,
    snapshot: JobVisibility,
    dataAsOf: Option<Time>,
    version: nat)

  function ViewOf(cfg: VisibilityConfig, job: JobVisibility): View {
    var now := if job.freshness.dataAsOf.Some? then job.freshness.dataAsOf.value else 0;
    var shown := DerivedStatus(cfg, job, now);
    View(job.description.correlationId, job.description.jobType, job.status, shown, DelayOf(cfg, job, now, shown),
         job, job.freshness.dataAsOf, job.version)
  }

  function WaitRank(s: Status): nat {
    match s
    case Scheduled => 0
    case AwaitingExecution => 1
    case Overdue => 2
    case _ => 3
  }

  function DelayRank(d: Delay): nat {
    match d
    case NotYetEligible => 0
    case AwaitingPollWindow => 1
    case PossibleBatchBacklog => 2
    case RetrievedAwaitingWorker => 2
    case ExecutionOverdue => 3
  }

  /** While nothing is delivered, the shown status only ages: a waiting job goes from scheduled through
      awaiting to overdue, overdue exactly when a reconciliation pass would observe it, and any other status
      is shown as recorded. */
  lemma ShownStatusAges(cfg: VisibilityConfig, job: JobVisibility, now: Time, later: Time)
    requires now <= later && !job.status.Overdue?
    ensures DerivedStatus(cfg, job, now).Overdue? <==> Observes(cfg, job, now, StartOverdue)
    ensures if job.status.Scheduled? || job.status.AwaitingExecution?
            then WaitRank(DerivedStatus(cfg, job, now)) <= WaitRank(DerivedStatus(cfg, job, later)) <= 2
            else DerivedStatus(cfg, job, now) == DerivedStatus(cfg, job, later) == job.status
  {
  }

  /** The delay classification ages the same way, and is present at every instant or at none. */
  lemma DelayAges(cfg: VisibilityConfig, job: JobVisibility, now: Time, later: Time)
    requires now <= later && !job.status.Overdue?
    ensures var d := DelayOf(cfg, job, now, DerivedStatus(cfg, job, now));
            var l := DelayOf(cfg, job, later, DerivedStatus(cfg, job, later));
            && (d.None? <==> l.None?)
            && (d.Some? ==> DelayRank(d.value) <= DelayRank(l.value))
  {
  }

  /** The instants at which a waiting job's shown status changes: its schedule, and the end of the grace after
      it while no start is known. */
  lemma ShownTimeline(cfg: VisibilityConfig, job: JobVisibility, now: Time, due: Time)
    requires job.description.scheduledAt == Some(due) && cfg.grace >= 0
    ensures job.status.Scheduled? ==>
              && (now < due ==> DerivedStatus(cfg, job, now).Scheduled?)
              && (due <= now <= due + cfg.grace ==> DerivedStatus(cfg, job, now).AwaitingExecution?)
              && (now > due + cfg.grace ==>
                    if job.milestones.startedAt.None? then DerivedStatus(cfg, job, now).Overdue?
                    else DerivedStatus(cfg, job, now).AwaitingExecution?)
    ensures job.status.AwaitingExecution? ==>
              (DerivedStatus(cfg, job, now).Overdue? <==> now > due + cfg.grace && job.milestones.startedAt.None?)
              && (!DerivedStatus(cfg, job, now).Overdue? ==> DerivedStatus(cfg, job, now).AwaitingExecution?)
  {
  }

  /** The delay of an unstarted scheduled job over time: not yet eligible until its schedule; then the poll
      window for one interval and a backlog after it, or a waiting worker once retrieved; and overdue as soon as
      the shown status is. */
  lemma DelayTimeline(cfg: VisibilityConfig, job: JobVisibility, now: Time, due: Time)
    requires job.description.scheduledAt == Some(due) && job.milestones.startedAt.None?
    ensures var shown := DerivedStatus(cfg, job, now);
            var d := DelayOf(cfg, job, now, shown);
            && (now < due <==> d == Some(NotYetEligible))
            && (now >= due && shown.Overdue? <==> d == Some(ExecutionOverdue))
            && (now >= due && !shown.Overdue? && job.milestones.retrievedAt.Some? <==>
                  d == Some(RetrievedAwaitingWorker))
            && (now >= due && !shown.Overdue? && job.milestones.retrievedAt.None? && now - due < cfg.pollInterval <==>
                  d == Some(AwaitingPollWindow))
            && (now >= due && !shown.Overdue? && job.milestones.retrievedAt.None? && now - due >= cfg.pollInterval <==>
                  d == Some(PossibleBatchBacklog))
  {
  }

  /** A started job, or one without a schedule, has no delay. */
  lemma NoDelay(cfg: VisibilityConfig, job: JobVisibility, now: Time, shown: Status)
    requires job.milestones.startedAt.Some? || job.description.scheduledAt.None?
    ensures DelayOf(cfg, job, now, shown).None?
  {
  }

  /** Every column of a view is the aggregate's own, the shown ones as of its newest event. */
  lemma ViewColumns(cfg: VisibilityConfig, job: JobVisibility, at: Time)
    requires job.freshness.dataAsOf == Some(at)
    ensures var v := ViewOf(cfg, job);
            && v.snapshot == job && v.recorded == job.status && v.version == job.version
            && v.correlationId == job.description.correlationId && v.jobType == job.description.jobType
            && v.dataAsOf == Some(at)
            && v.shown == DerivedStatus(cfg, job, at) && v.delay == DelayOf(cfg, job, at, v.shown)
  {
  }
}

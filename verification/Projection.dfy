/** The projector of edr_store/projection_worker.py over the journal and the tables it materialises.

Each transaction is one step; a transaction that fails before its commit is no step at all.  The sink
inserts the first row with a given event id and ignores the others; instants of persisting need not follow
the order of commits.
*/
module Projection {
  import opened Model
  import opened Reducer
  import opened Evidence
  import opened Ordering
  import opened Batches
  import opened Wire
  import opened Responses
  import Engine

  /** `read` decodes a stored document; the projector uses Wire.EventFromJournal. */
  datatype Config = Config(visibility: Engine.VisibilityConfig, read: Document -> Result<Event>)

  datatype JournalRow = JournalRow(jobId: JobId, payload: Document, persistedAt: Time)

  type Journal = map<EventId, JournalRow>

  datatype Tables = Tables(
    journal: Journal,
    views: map<JobId, View>,
    attempts: map<JobId, map<nat, Attempt>>,
    projected: set<EventId>)

  datatype Step =
    | Insert(id: EventId, row: JournalRow)
    | RunOnce(batch: nat)
    | Rebuild

  // Reading the journal

  /** The stored document decodes to an event with the stored keys. */
  predicate RowReads(cfg: Config, id: EventId, row: JournalRow) {
    && cfg.read(row.payload).Ok?
    && cfg.read(row.payload).value.eventId == id
    && cfg.read(row.payload).value.jobId == row.jobId
  }

  /** Whatever decodes was stored under its own keys; a document that does not decode may be there too. */
  predicate Keyed(cfg: Config, journal: Journal) {
    forall id | id in journal && cfg.read(journal[id].payload).Ok? :: RowReads(cfg, id, journal[id])
  }

  predicate JobReadable(cfg: Config, journal: Journal, job: JobId) {
    forall id | id in journal && journal[id].jobId == job :: RowReads(cfg, id, journal[id])
  }

  predicate EachReadable(cfg: Config, journal: Journal, jobs: seq<JobId>) {
    forall job | job in jobs :: JobReadable(cfg, journal, job)
  }

  function Jobs(journal: Journal): set<JobId> {
    set id | id in journal :: journal[id].jobId
  }

  function JobRows(journal: Journal, job: JobId): map<EventId, Time> {
    map id | id in journal && journal[id].jobId == job :: journal[id].persistedAt
  }

  function EventsOf(cfg: Config, journal: Journal, ids: seq<EventId>): seq<Event>
    requires forall id | id in ids :: id in journal && RowReads(cfg, id, journal[id])
  {
    seq(|ids|, i requires 0 <= i < |ids| =>
      assert RowReads(cfg, ids[i], journal[ids[i]]); cfg.read(journal[ids[i]].payload).value)
  }

  /** The job's events in journal order. */
  ghost function History(cfg: Config, journal: Journal, job: JobId): seq<Event>
    requires JobReadable(cfg, journal, job)
  {
    OrderedIsListing(JobRows(journal, job));
    EventsOf(cfg, journal, Ordered(JobRows(journal, job)))
  }

  ghost function Folded(cfg: Config, journal: Journal, job: JobId): JobVisibility
    requires JobReadable(cfg, journal, job)
  {
    Replay(job, History(cfg, journal, job))
  }

  // The transactions

  ghost function Project(cfg: Config, s: Tables, job: JobId): Tables
    requires JobReadable(cfg, s.journal, job)
  {
    s.(views := s.views[job := ViewOf(cfg.visibility, Folded(cfg, s.journal, job))],
       attempts := s.attempts[job := Folded(cfg, s.journal, job).attempts])
  }

  /** One projection per entry, in order. */
  ghost function ProjectEach(cfg: Config, s: Tables, jobs: seq<JobId>): (t: Tables)
    requires EachReadable(cfg, s.journal, jobs)
    ensures t.journal == s.journal
  {
    if jobs == [] then s
    else
      assert jobs[|jobs| - 1] in jobs;
      Project(cfg, ProjectEach(cfg, s, jobs[..|jobs| - 1]), jobs[|jobs| - 1])
  }

  /** The job each journal row belongs to. */
  function OwnersOf(journal: Journal, ids: seq<EventId>): seq<JobId>
    requires forall id | id in ids :: id in journal
  {
    seq(|ids|, i requires 0 <= i < |ids| => journal[ids[i]].jobId)
  }

  function Pending(s: Tables): map<EventId, Time> {
    map id | id in s.journal && id !in s.projected :: s.journal[id].persistedAt
  }

  ghost function Batch(s: Tables, limit: nat): seq<EventId> {
    var all := Ordered(Pending(s));
    if limit < |all| then all[..limit] else all
  }

  lemma BatchIsPending(s: Tables, limit: nat)
    ensures forall id | id in Batch(s, limit) :: id in Pending(s)
    ensures |Batch(s, limit)| == if limit < |Pending(s)| then limit else |Pending(s)|
    ensures Distinct(Batch(s, limit))
  {
    OrderedIsListing(Pending(s));
    ListingComplete(Pending(s), Ordered(Pending(s)));
  }

  /** A pass takes unprojected rows in the order they were persisted: none it leaves behind is earlier. */
  lemma BatchIsFirst(s: Tables, limit: nat, id: EventId, other: EventId)
    requires id in Batch(s, limit) && other in s.journal && other !in s.projected && other !in Batch(s, limit)
    ensures id in s.journal && id !in s.projected
    ensures var before, after := s.journal[id].persistedAt, s.journal[other].persistedAt;
            before < after || (before == after && id < other)
  {
    var pending, all := Pending(s), Ordered(Pending(s));
    OrderedIsListing(pending);
    ListingComplete(pending, all);
    assert other in Elements(all);
    var i :| 0 <= i < |Batch(s, limit)| && Batch(s, limit)[i] == id;
    var k :| 0 <= k < |all| && all[k] == other;
    assert forall n | 0 <= n < |Batch(s, limit)| ::
             Batch(s, limit)[n] in Batch(s, limit) && Batch(s, limit)[n] == all[n];
    assert all[i] in pending && Before(pending[all[i]], all[i], pending[all[k]], all[k]);
  }

  /** SELECT DISTINCT job_id ... ORDER BY job_id. */
  function JobKeys(journal: Journal): map<JobId, Time> {
    map job | job in Jobs(journal) :: 0
  }

  /** The jobs a pass projects, one per selected row. */
  ghost function BatchOwners(s: Tables, limit: nat): seq<JobId> {
    BatchIsPending(s, limit);
    OwnersOf(s.journal, Batch(s, limit))
  }

  /** A transaction that meets a document it cannot decode raises, and is rolled back. */
  ghost function Next(cfg: Config, s: Tables, a: Step): Tables {
    match a
    case Insert(id, row) => if id in s.journal then s else s.(journal := s.journal[id := row])
    case RunOnce(limit) =>
      if EachReadable(cfg, s.journal, BatchOwners(s, limit))
      then ProjectEach(cfg, s, BatchOwners(s, limit)).(projected := s.projected + Elements(Batch(s, limit)))
      else s
    case Rebuild =>
      if EachReadable(cfg, s.journal, Ordered(JobKeys(s.journal)))
      then ProjectEach(cfg, s, Ordered(JobKeys(s.journal)))
      else s
  }

  /** The sink keys each row by what its document says, if it says anything. */
  predicate Allowed(cfg: Config, a: Step) {
    a.Insert? && cfg.read(a.row.payload).Ok? ==> RowReads(cfg, a.id, a.row)
  }

  // The invariant

  predicate UpToDate(s: Tables, job: JobId) {
    forall id | id in s.journal && s.journal[id].jobId == job :: id in s.projected
  }

  /** Both tables show the fold of the job's whole journal. */
  ghost predicate Shows(cfg: Config, s: Tables, job: JobId) {
    && JobReadable(cfg, s.journal, job)
    && job in s.views && s.views[job] == ViewOf(cfg.visibility, Folded(cfg, s.journal, job))
    && job in s.attempts && s.attempts[job] == Folded(cfg, s.journal, job).attempts
  }

  ghost predicate Inv(cfg: Config, s: Tables) {
    && Keyed(cfg, s.journal)
    && s.projected <= s.journal.Keys
    && s.views.Keys == s.attempts.Keys && s.views.Keys <= Jobs(s.journal)
    && forall job | job in Jobs(s.journal) && UpToDate(s, job) :: Shows(cfg, s, job)
  }

  /** The rows of one job are as they were. */
  predicate SameRows(s: Tables, t: Tables, job: JobId) {
    && (job in t.views <==> job in s.views) && (job in s.views ==> t.views[job] == s.views[job])
    && (job in t.attempts <==> job in s.attempts) && (job in s.attempts ==> t.attempts[job] == s.attempts[job])
  }

  /** What a loop of projections does to one job: its rows show the whole journal if the loop names it, and
      are untouched otherwise. */
  lemma {:induction false} EachEffect(cfg: Config, s: Tables, jobs: seq<JobId>, job: JobId)
    requires EachReadable(cfg, s.journal, jobs)
    ensures var t := ProjectEach(cfg, s, jobs);
            && t.projected == s.projected
            && (job in jobs ==> Shows(cfg, t, job))
            && (job !in jobs ==> SameRows(s, t, job))
  {
    if jobs != [] {
      var init, last := jobs[..|jobs| - 1], jobs[|jobs| - 1];
      assert init + [last] == jobs;
      EachEffect(cfg, s, init, job);
    }
  }

  lemma {:induction false} EachKeys(cfg: Config, s: Tables, jobs: seq<JobId>)
    requires EachReadable(cfg, s.journal, jobs) && forall job | job in jobs :: job in Jobs(s.journal)
    requires s.views.Keys == s.attempts.Keys && s.views.Keys <= Jobs(s.journal)
    ensures var t := ProjectEach(cfg, s, jobs); t.views.Keys == t.attempts.Keys && t.views.Keys <= Jobs(s.journal)
  {
    if jobs != [] {
      EachKeys(cfg, s, jobs[..|jobs| - 1]);
    }
  }

  lemma RunOnceInv(cfg: Config, s: Tables, limit: nat)
    requires Inv(cfg, s)
    ensures Inv(cfg, Next(cfg, s, RunOnce(limit)))
  {
    BatchIsPending(s, limit);
    var owners := BatchOwners(s, limit);
    if EachReadable(cfg, s.journal, owners) {
      var t := Next(cfg, s, RunOnce(limit));
      EachKeys(cfg, s, owners);
      forall job | job in Jobs(t.journal) && UpToDate(t, job) ensures Shows(cfg, t, job) {
        EachEffect(cfg, s, owners, job);
        if job !in owners {
          UntouchedJob(s, t, Batch(s, limit), job);
        }
      }
    }
  }

  lemma OwnerListed(journal: Journal, ids: seq<EventId>, id: EventId)
    requires (forall other | other in ids :: other in journal) && id in ids
    ensures journal[id].jobId in OwnersOf(journal, ids)
  {
    var k :| 0 <= k < |ids| && ids[k] == id;
    assert OwnersOf(journal, ids)[k] == journal[id].jobId;
  }

  lemma UntouchedJob(s: Tables, t: Tables, ids: seq<EventId>, job: JobId)
    requires forall id | id in ids :: id in s.journal
    requires t.journal == s.journal && t.projected == s.projected + Elements(ids)
    requires job !in OwnersOf(s.journal, ids) && UpToDate(t, job)
    ensures UpToDate(s, job)
  {
    forall id | id in ids ensures s.journal[id].jobId != job {
      OwnerListed(s.journal, ids, id);
    }
  }

  lemma InsertShows(cfg: Config, s: Tables, id: EventId, row: JournalRow, job: JobId)
    requires Inv(cfg, s) && id !in s.journal
    requires var t := s.(journal := s.journal[id := row]); job in Jobs(t.journal) && UpToDate(t, job)
    ensures Shows(cfg, s.(journal := s.journal[id := row]), job)
  {
    var t := s.(journal := s.journal[id := row]);
    assert forall other | other in s.journal :: t.journal[other] == s.journal[other];
    assert t.journal[id].jobId == row.jobId && id !in t.projected;
    assert UpToDate(s, job);
    OtherHistory(cfg, s.journal, id, row, job);
  }

  lemma InsertInv(cfg: Config, s: Tables, id: EventId, row: JournalRow)
    requires Inv(cfg, s) && Allowed(cfg, Insert(id, row))
    ensures Inv(cfg, Next(cfg, s, Insert(id, row)))
  {
    if id !in s.journal {
      var t := Next(cfg, s, Insert(id, row));
      assert forall other | other in s.journal :: t.journal[other] == s.journal[other];
      forall job | job in Jobs(t.journal) && UpToDate(t, job) ensures Shows(cfg, t, job) {
        InsertShows(cfg, s, id, row, job);
      }
    }
  }

  lemma OtherHistory(cfg: Config, journal: Journal, id: EventId, row: JournalRow, job: JobId)
    requires JobReadable(cfg, journal, job) && id !in journal && job != row.jobId
    ensures JobReadable(cfg, journal[id := row], job)
    ensures History(cfg, journal[id := row], job) == History(cfg, journal, job)
  {
    assert JobRows(journal[id := row], job) == JobRows(journal, job);
    OrderedIsListing(JobRows(journal, job));
  }

  lemma JobKeysOrdered(journal: Journal)
    ensures forall job :: job in Ordered(JobKeys(journal)) <==> job in Jobs(journal)
  {
    OrderedIsListing(JobKeys(journal));
    ListingComplete(JobKeys(journal), Ordered(JobKeys(journal)));
    assert forall job :: job in Ordered(JobKeys(journal)) <==> job in Elements(Ordered(JobKeys(journal)));
  }

  /** A rebuild of readable journals shows every journaled job in full; whatever it meets, it changes nothing
      for a job shown in full before. */
  lemma RebuildShows(cfg: Config, s: Tables, job: JobId)
    requires job in Jobs(s.journal)
    ensures var t := Next(cfg, s, Rebuild);
            && t.journal == s.journal && t.projected == s.projected
            && ((forall other | other in Jobs(s.journal) :: JobReadable(cfg, s.journal, other)) ==> Shows(cfg, t, job))
            && (Shows(cfg, s, job) ==> SameRows(s, t, job))
  {
    JobKeysOrdered(s.journal);
    if EachReadable(cfg, s.journal, Ordered(JobKeys(s.journal))) {
      EachEffect(cfg, s, Ordered(JobKeys(s.journal)), job);
    }
  }

  lemma RebuildInv(cfg: Config, s: Tables)
    requires Inv(cfg, s)
    ensures Inv(cfg, Next(cfg, s, Rebuild))
  {
    var jobs := Ordered(JobKeys(s.journal));
    JobKeysOrdered(s.journal);
    if EachReadable(cfg, s.journal, jobs) {
      EachKeys(cfg, s, jobs);
      EachEffect(cfg, s, jobs, 0);
      forall job | job in Jobs(s.journal) ensures Shows(cfg, Next(cfg, s, Rebuild), job) {
        EachEffect(cfg, s, jobs, job);
      }
    }
  }

  lemma OwnersAreJobs(journal: Journal, ids: seq<EventId>)
    requires forall id | id in ids :: id in journal
    ensures forall job | job in OwnersOf(journal, ids) :: job in Jobs(journal)
  {
    forall job | job in OwnersOf(journal, ids) ensures job in Jobs(journal) {
      var k :| 0 <= k < |ids| && journal[ids[k]].jobId == job;
      assert ids[k] in ids;
    }
  }

  /** What a pass or a rebuild does to one job: it shows the whole journal, or is untouched. */
  lemma NextOnOneJob(cfg: Config, s: Tables, a: Step, job: JobId)
    requires a.RunOnce? || a.Rebuild?
    ensures var t := Next(cfg, s, a);
            && t.journal == s.journal
            && (SameRows(s, t, job) || (job in Jobs(s.journal) && Shows(cfg, t, job)))
  {
    match a {
      case RunOnce(limit) =>
        BatchIsPending(s, limit);
        var owners := BatchOwners(s, limit);
        OwnersAreJobs(s.journal, Batch(s, limit));
        if EachReadable(cfg, s.journal, owners) {
          EachEffect(cfg, s, owners, job);
        }
      case Rebuild =>
        var jobs := Ordered(JobKeys(s.journal));
        JobKeysOrdered(s.journal);
        if EachReadable(cfg, s.journal, jobs) {
          EachEffect(cfg, s, jobs, job);
        }
    }
  }

  lemma NextInv(cfg: Config, s: Tables, a: Step)
    requires Inv(cfg, s) && Allowed(cfg, a)
    ensures Inv(cfg, Next(cfg, s, a))
  {
    match a {
      case Insert(id, row) => InsertInv(cfg, s, id, row);
      case RunOnce(limit) => RunOnceInv(cfg, s, limit);
      case Rebuild => RebuildInv(cfg, s);
    }
  }

  lemma JournalKept(cfg: Config, s: Tables, a: Step)
    requires !a.Insert?
    ensures Next(cfg, s, a).journal == s.journal
  {
  }

  // Runs

  const EMPTY_TABLES: Tables := Tables(map[], map[], map[], {})

  ghost predicate ValidRun(cfg: Config, steps: seq<Step>) {
    forall a | a in steps :: Allowed(cfg, a)
  }

  ghost function Run(cfg: Config, s: Tables, steps: seq<Step>): (t: Tables)
    requires Inv(cfg, s) && ValidRun(cfg, steps)
    ensures Inv(cfg, t)
  {
    if steps == [] then s
    else
      var before := Run(cfg, s, steps[..|steps| - 1]);
      NextInv(cfg, before, steps[|steps| - 1]);
      Next(cfg, before, steps[|steps| - 1])
  }

  /** After any run, a job whose journal rows are all marked projected has in both tables exactly the fold of
      its journal; a rebuild then changes nothing for it; and the rows meet the schema's checks. */
  lemma {:induction false} ProjectionIsTheFold(cfg: Config, steps: seq<Step>, job: JobId, id: EventId)
    requires ValidRun(cfg, steps)
    requires var s := Run(cfg, EMPTY_TABLES, steps); id in s.journal && s.journal[id].jobId == job && UpToDate(s, job)
    ensures var s := Run(cfg, EMPTY_TABLES, steps);
            && Shows(cfg, s, job)
            && SameRows(s, Next(cfg, s, Rebuild), job)
            && s.views[job].dataAsOf.Some? && forall n | n in s.attempts[job] :: n > 0
  {
    var s := Run(cfg, EMPTY_TABLES, steps);
    assert job in Jobs(s.journal);
    RebuildShows(cfg, s, job);
    RowChecks(cfg, s.journal, job, id);
  }

  lemma RowChecks(cfg: Config, journal: Journal, job: JobId, id: EventId)
    requires JobReadable(cfg, journal, job) && id in journal && journal[id].jobId == job
    ensures Folded(cfg, journal, job).freshness.dataAsOf.Some?
    ensures forall n | n in Folded(cfg, journal, job).attempts :: n > 0
  {
    var rows := JobRows(journal, job);
    OrderedIsListing(rows);
    ListingComplete(rows, Ordered(rows));
    assert id in Elements(Ordered(rows));
    ReplayChecks(job, History(cfg, journal, job));
  }

  lemma ReplayChecks(job: JobId, events: seq<Event>)
    requires events != []
    ensures Replay(job, events).freshness.dataAsOf.Some?
    ensures forall n | n in Replay(job, events).attempts :: n > 0
  {
    ReplayEvidence(job, events, DataAsOf);
    assert events[0] in events;
    forall n | n in Replay(job, events).attempts ensures n > 0 {
      ReplayAttempts(job, events, n);
    }
  }

  // Draining

  /** No pending row belongs to a job with an undecodable row. */
  ghost predicate PendingReadable(cfg: Config, s: Tables) {
    forall id | id in Pending(s) :: JobReadable(cfg, s.journal, s.journal[id].jobId)
  }

  ghost predicate FollowsRunOnce(cfg: Config, s: Tables, t: Tables, batch: nat) {
    t == Next(cfg, s, RunOnce(batch))
  }

  /** Successive `run_once` transactions with nothing journaled in between. */
  ghost predicate Draining(cfg: Config, states: seq<Tables>, batch: nat) {
    && states != [] && Inv(cfg, states[0])
    && forall i, k | 0 <= i < k < |states| && k == i + 1 ::
         FollowsRunOnce(cfg, states[i], states[k], batch)
  }

  lemma ReadableBatch(cfg: Config, s: Tables, batch: nat)
    requires PendingReadable(cfg, s)
    ensures EachReadable(cfg, s.journal, BatchOwners(s, batch))
  {
    BatchIsPending(s, batch);
    var ids := Batch(s, batch);
    assert forall k | 0 <= k < |ids| :: ids[k] in ids && ids[k] in Pending(s);
  }

  lemma RunOnceProjected(cfg: Config, s: Tables, batch: nat)
    requires EachReadable(cfg, s.journal, BatchOwners(s, batch))
    ensures Next(cfg, s, RunOnce(batch)).journal == s.journal
    ensures Next(cfg, s, RunOnce(batch)).projected == s.projected + Elements(Batch(s, batch))
  {
  }

  lemma PendingShrinks(s: Tables, t: Tables, batch: nat)
    requires t.journal == s.journal && t.projected == s.projected + Elements(Batch(s, batch))
    ensures |Pending(t)| == if batch < |Pending(s)| then |Pending(s)| - batch else 0
  {
    BatchIsPending(s, batch);
    var ids := Batch(s, batch);
    DistinctCount(ids);
    assert Pending(t).Keys == Pending(s).Keys - Elements(ids);
    assert Elements(ids) <= Pending(s).Keys;
    assert |Pending(t).Keys| == |Pending(s).Keys| - |Elements(ids)|;
  }

  lemma {:induction false} RunOncePending(cfg: Config, s: Tables, t: Tables, batch: nat)
    requires FollowsRunOnce(cfg, s, t, batch) && PendingReadable(cfg, s)
    ensures t.journal == s.journal && PendingReadable(cfg, t)
    ensures |Pending(t)| == Left(|Pending(s)|, batch, 1)
  {
    ReadableBatch(cfg, s, batch);
    RunOnceProjected(cfg, s, batch);
    PendingShrinks(s, t, batch);
  }

  lemma {:induction false} DrainInv(cfg: Config, states: seq<Tables>, batch: nat, i: nat)
    requires Draining(cfg, states, batch) && PendingReadable(cfg, states[0]) && i < |states|
    ensures Inv(cfg, states[i]) && states[i].journal == states[0].journal && PendingReadable(cfg, states[i])
  {
    if i > 0 {
      DrainInv(cfg, states, batch, i - 1);
      assert FollowsRunOnce(cfg, states[i - 1], states[i], batch);
      RunOnceInv(cfg, states[i - 1], batch);
      RunOncePending(cfg, states[i - 1], states[i], batch);
    }
  }

  function Sizes(states: seq<Tables>): seq<nat> {
    seq(|states|, k requires 0 <= k < |states| => |Pending(states[k])|)
  }

  lemma {:induction false} DrainSize(cfg: Config, states: seq<Tables>, batch: nat, k: nat)
    requires Draining(cfg, states, batch) && PendingReadable(cfg, states[0]) && 0 < k < |states|
    ensures |Pending(states[k])| == Left(|Pending(states[k - 1])|, batch, 1)
  {
    DrainInv(cfg, states, batch, k - 1);
    assert FollowsRunOnce(cfg, states[k - 1], states[k], batch);
    RunOncePending(cfg, states[k - 1], states[k], batch);
  }

  lemma {:induction false} DrainPending(cfg: Config, states: seq<Tables>, batch: nat, i: nat)
    requires Draining(cfg, states, batch) && PendingReadable(cfg, states[0]) && i < |states|
    ensures |Pending(states[i])| == Left(|Pending(states[0])|, batch, i)
  {
    var sizes := Sizes(states);
    forall k | 0 < k < |states| ensures sizes[k] == Left(sizes[k - 1], batch, 1) {
      DrainSize(cfg, states, batch, k);
    }
    LeftRepeated(sizes, batch, i);
  }

  /** n pending rows are drained by exactly ceil(n / batch) calls and no fewer; then every journaled job
      shows the fold of its journal. */
  lemma Drains(cfg: Config, states: seq<Tables>, batch: nat, calls: nat)
    requires Draining(cfg, states, batch) && PendingReadable(cfg, states[0]) && batch > 0 && calls < |states|
    ensures Pending(states[calls]) == map[] <==> calls >= CeilDiv(|Pending(states[0])|, batch)
    ensures Inv(cfg, states[calls])
    ensures Pending(states[calls]) == map[] ==>
              forall job | job in Jobs(states[0].journal) :: Shows(cfg, states[calls], job)
  {
    DrainPending(cfg, states, batch, calls);
    LeftIsProduct(|Pending(states[0])|, batch, calls);
    CeilDivExact(|Pending(states[0])|, batch, calls);
    DrainInv(cfg, states, batch, calls);
    assert Pending(states[calls]) == map[] <==> |Pending(states[calls])| == 0;
    if Pending(states[calls]) == map[] {
      NothingPending(cfg, states[calls]);
    }
  }

  lemma BlockedStep(cfg: Config, s: Tables, batch: nat, id: EventId)
    requires id in Pending(s) && !JobReadable(cfg, s.journal, s.journal[id].jobId)
    ensures var t := Next(cfg, s, RunOnce(batch)); t.journal == s.journal && id in Pending(t)
    ensures id in Batch(s, batch) ==> Next(cfg, s, RunOnce(batch)) == s
  {
    BatchIsPending(s, batch);
    if id in Batch(s, batch) {
      OwnerListed(s.journal, Batch(s, batch), id);
    }
  }

  /** Otherwise nothing drains: a pending row of a job with an undecodable row stays pending for ever, and
      once it is among the first rows every further call raises and changes nothing. */
  lemma {:induction false} UndecodableRowBlocks(cfg: Config, states: seq<Tables>, batch: nat, id: EventId, i: nat)
    requires Draining(cfg, states, batch) && i < |states|
    requires id in Pending(states[0]) && !JobReadable(cfg, states[0].journal, states[0].journal[id].jobId)
    ensures states[i].journal == states[0].journal && id in Pending(states[i])
    ensures id in Batch(states[0], batch) ==> states[i] == states[0]
  {
    if i > 0 {
      UndecodableRowBlocks(cfg, states, batch, id, i - 1);
      assert FollowsRunOnce(cfg, states[i - 1], states[i], batch);
      BlockedStep(cfg, states[i - 1], batch, id);
    }
  }

  lemma NothingPending(cfg: Config, s: Tables)
    requires Inv(cfg, s) && Pending(s) == map[]
    ensures forall job | job in Jobs(s.journal) :: Shows(cfg, s, job)
  {
    forall job | job in Jobs(s.journal) ensures Shows(cfg, s, job) {
      forall id | id in s.journal && s.journal[id].jobId == job ensures id in s.projected {
        assert id !in Pending(s);
      }
      assert UpToDate(s, job);
    }
  }

  // The projector itself

  /** The first `i` projections of a loop are done. */
  ghost predicate ProjectedTo(cfg: Config, s: Tables, jobs: seq<JobId>, i: nat, here: Tables)
    requires i <= |jobs|
  {
    EachReadable(cfg, s.journal, jobs[..i]) && here == ProjectEach(cfg, s, jobs[..i])
  }

  lemma EachExtends(cfg: Config, s: Tables, jobs: seq<JobId>, i: nat, here: Tables)
    requires i < |jobs| && ProjectedTo(cfg, s, jobs, i, here) && JobReadable(cfg, s.journal, jobs[i])
    ensures ProjectedTo(cfg, s, jobs, i + 1, Project(cfg, here, jobs[i]))
  {
    assert jobs[..i + 1][..i] == jobs[..i];
    assert jobs[..i + 1] == jobs[..i] + [jobs[i]];
  }

  lemma {:induction false} EachFinished(cfg: Config, s: Tables, jobs: seq<JobId>, here: Tables)
    requires ProjectedTo(cfg, s, jobs, |jobs|, here)
    ensures EachReadable(cfg, s.journal, jobs) && here == ProjectEach(cfg, s, jobs)
  {
    assert jobs[..|jobs|] == jobs;
  }

  lemma BatchSelected(s: Tables, pending: map<EventId, Time>, limit: nat, ids: seq<EventId>)
    requires pending == Pending(s) && FirstByKey(pending, limit, ids)
    ensures ids == Batch(s, limit) && forall id | id in ids :: id in s.journal
    ensures |ids| == if limit < |Pending(s)| then limit else |Pending(s)|
  {
    WholeListing(pending, limit, ids);
    BatchIsPending(s, limit);
  }

  lemma {:induction false} WholeListing(candidates: map<nat, Time>, limit: nat, ids: seq<nat>)
    requires FirstByKey(candidates, limit, ids)
    ensures ids == if limit < |Ordered(candidates)| then Ordered(candidates)[..limit] else Ordered(candidates)
    ensures Distinct(ids)
  {
    FirstIsPrefix(candidates, limit, ids);
    OrderedIsListing(candidates);
  }

  /** The engine has seen the first events of one job's history and nothing else. */
  ghost predicate Folding(s: Engine.EngineState, job: JobId, done: seq<Event>) {
    && Engine.Current(s, job) == Replay(job, done)
    && forall x :: x in s.eventIds <==> Engine.Seen(done, x)
  }

  lemma FoldingOne(s: Engine.EngineState, job: JobId, done: seq<Event>, e: Event)
    requires Folding(s, job, done) && e.jobId == job && forall d | d in done :: d.eventId != e.eventId
    ensures Folding(Engine.Deliver(s, e, None), job, done + [e])
  {
    ReplayOne(job, done, e);
    forall x ensures Engine.Seen(done + [e], x) <==> Engine.Seen(done, x) || x == e.eventId {
      assert e in done + [e];
    }
  }

  /** Each event of a history has the job's id and an event id no earlier one has. */
  lemma HistoryDistinct(cfg: Config, journal: Journal, job: JobId, i: nat)
    requires JobReadable(cfg, journal, job) && i < |Ordered(JobRows(journal, job))|
    ensures var ids, all := Ordered(JobRows(journal, job)), History(cfg, journal, job);
            && |all| == |ids| && ids[i] in journal && cfg.read(journal[ids[i]].payload) == Ok(all[i])
            && all[i].jobId == job && forall d | d in all[..i] :: d.eventId != all[i].eventId
  {
    var ids, all := Ordered(JobRows(journal, job)), History(cfg, journal, job);
    OrderedIsListing(JobRows(journal, job));
    ListingComplete(JobRows(journal, job), ids);
    assert ids[i] in ids && RowReads(cfg, ids[i], journal[ids[i]]);
    forall d | d in all[..i] ensures d.eventId != all[i].eventId {
      var k :| 0 <= k < i && all[k] == d;
      assert ids[k] in ids && RowReads(cfg, ids[k], journal[ids[k]]);
    }
  }

  /** The first rows of a listing decode to these events. */
  predicate DecodesTo(cfg: Config, journal: Journal, ids: seq<EventId>, events: seq<Event>) {
    && |events| <= |ids|
    && forall k | 0 <= k < |events| ::
         && ids[k] in journal && RowReads(cfg, ids[k], journal[ids[k]])
         && cfg.read(journal[ids[k]].payload).value == events[k]
  }

  lemma DecodesNext(cfg: Config, journal: Journal, ids: seq<EventId>, events: seq<Event>, e: Event)
    requires DecodesTo(cfg, journal, ids, events) && |events| < |ids| && Keyed(cfg, journal)
    requires ids[|events|] in journal && cfg.read(journal[ids[|events|]].payload) == Ok(e)
    ensures DecodesTo(cfg, journal, ids, events + [e])
  {
    assert RowReads(cfg, ids[|events|], journal[ids[|events|]]);
  }

  lemma DecodesAll(cfg: Config, journal: Journal, job: JobId, events: seq<Event>)
    requires DecodesTo(cfg, journal, Ordered(JobRows(journal, job)), events)
    requires |events| == |Ordered(JobRows(journal, job))|
    ensures JobReadable(cfg, journal, job) && events == History(cfg, journal, job)
  {
    var ids := Ordered(JobRows(journal, job));
    OrderedIsListing(JobRows(journal, job));
    ListingComplete(JobRows(journal, job), ids);
    forall id | id in journal && journal[id].jobId == job ensures RowReads(cfg, id, journal[id]) {
      assert id in Elements(ids);
    }
  }

  lemma ListedRow(journal: Journal, job: JobId, i: nat)
    requires i < |Ordered(JobRows(journal, job))|
    ensures var id := Ordered(JobRows(journal, job))[i]; id in journal && journal[id].jobId == job
  {
    OrderedIsListing(JobRows(journal, job));
  }

  class ProjectionWorker {
    const cfg: Config
    const batchSize: nat
    var journal: Journal
    var views: map<JobId, View>
    var attempts: map<JobId, map<nat, Attempt>>
    var projected: set<EventId>

    ghost function State(): Tables
      reads this
    {
      Tables(journal, views, attempts, projected)
    }

    constructor (cfg: Config, batchSize: nat)
      ensures State() == EMPTY_TABLES && this.cfg == cfg && this.batchSize == batchSize
    {
      this.cfg := cfg;
      this.batchSize := batchSize;
      this.journal := map[];
      this.views := map[];
      this.attempts := map[];
      this.projected := {};
    }

    method ApplyOne(engine: Engine.VisibilityEngine, job: JobId, ghost done: seq<Event>, e: Event)
      requires Folding(engine.State(), job, done) && e.jobId == job && forall d | d in done :: d.eventId != e.eventId
      modifies engine
      ensures Folding(engine.State(), job, done + [e])
    {
      FoldingOne(engine.State(), job, done, e);
      var _ := engine.Apply(e, None);
    }

    method ApplyNext(engine: Engine.VisibilityEngine, job: JobId, ghost ids: seq<EventId>, ghost i: nat, e: Event)
      requires JobReadable(cfg, journal, job) && ids == Ordered(JobRows(journal, job)) && i < |ids|
      requires |History(cfg, journal, job)| == |ids| && e == History(cfg, journal, job)[i]
      requires Folding(engine.State(), job, History(cfg, journal, job)[..i])
      modifies engine
      ensures Folding(engine.State(), job, History(cfg, journal, job)[..i + 1])
    {
      ghost var all := History(cfg, journal, job);
      HistoryDistinct(cfg, journal, job, i);
      assert all[..i] + [all[i]] == all[..i + 1];
      ApplyOne(engine, job, all[..i], e);
    }

    /** Decode one job's documents in journal order, or raise at one that does not decode. */
    method DecodeJob(job: JobId) returns (events: Option<seq<Event>>)
      requires Keyed(cfg, journal)
      ensures events.Some? <==> JobReadable(cfg, journal, job)
      ensures events.Some? ==> events.value == History(cfg, journal, job)
    {
      var rows := JobRows(journal, job);
      var ids := SelectFirst(rows, |rows|);
      OrderedIsListing(rows);
      WholeListing(rows, |rows|, ids);
      var decoded := [];
      for i := 0 to |ids|
        invariant |decoded| == i && DecodesTo(cfg, journal, ids, decoded)
      {
        ListedRow(journal, job, i);
        var result := cfg.read(journal[ids[i]].payload);
        if result.Err? {
          return None;
        }
        DecodesNext(cfg, journal, ids, decoded, result.value);
        decoded := decoded + [result.value];
      }
      DecodesAll(cfg, journal, job, decoded);
      events := Some(decoded);
    }

    /** Feed one job's journal, in order, to an engine of its own. */
    method FoldJob(job: JobId) returns (snapshot: Option<JobVisibility>)
      requires Keyed(cfg, journal)
      ensures snapshot.Some? <==> JobReadable(cfg, journal, job)
      ensures snapshot.Some? ==> snapshot.value == Folded(cfg, journal, job)
    {
      var events := DecodeJob(job);
      if events.None? {
        return None;
      }
      ghost var ids := Ordered(JobRows(journal, job));
      var engine := new Engine.VisibilityEngine(cfg.visibility);
      for i := 0 to |events.value|
        invariant fresh(engine)
        invariant Folding(engine.State(), job, History(cfg, journal, job)[..i])
      {
        ApplyNext(engine, job, ids, i, events.value[i]);
      }
      assert History(cfg, journal, job)[..|events.value|] == History(cfg, journal, job);
      snapshot := Some(if job in engine.jobs then engine.jobs[job] else NewJob(job));
    }

    /** Rebuild one job's rows from its journal: upsert the view, delete the attempts, insert them anew. */
    method ProjectJob(job: JobId) returns (ok: bool)
      requires Keyed(cfg, journal)
      modifies this`views, this`attempts
      ensures ok <==> JobReadable(cfg, journal, job)
      ensures ok ==> State() == Project(cfg, old(State()), job)
    {
      var snapshot := FoldJob(job);
      if snapshot.None? {
        return false;
      }
      views := views[job := ViewOf(cfg.visibility, snapshot.value)];
      var inserted: map<nat, Attempt> := map[];
      var rest := snapshot.value.attempts.Keys;
      while rest != {}
        invariant rest <= snapshot.value.attempts.Keys
        invariant inserted == map n | n in snapshot.value.attempts && n !in rest :: snapshot.value.attempts[n]
        decreases |rest|
      {
        var n :| n in rest;
        inserted := inserted[n := snapshot.value.attempts[n]];
        rest := rest - {n};
      }
      assert inserted == snapshot.value.attempts;
      attempts := attempts[job := inserted];
      ok := true;
    }

    /** The loop over the jobs of the selected rows, or over all jobs; it raises at a job it cannot read. */
    method ProjectJobs(jobs: seq<JobId>) returns (ok: bool)
      requires Keyed(cfg, journal)
      modifies this`views, this`attempts
      ensures ok <==> EachReadable(cfg, journal, jobs)
      ensures ok ==> State() == ProjectEach(cfg, old(State()), jobs)
    {
      ghost var start := State();
      for i := 0 to |jobs|
        invariant ProjectedTo(cfg, start, jobs, i, State())
      {
        ghost var here := State();
        ok := ProjectJob(jobs[i]);
        if !ok {
          assert jobs[i] in jobs;
          return false;
        }
        EachExtends(cfg, start, jobs, i, here);
      }
      EachFinished(cfg, start, jobs, State());
      ok := true;
    }

    /** One pass.  `crashAfter` is how many rows are projected when a fault strikes, if one does before the
        commit.  A fault or an undecodable document rolls the transaction back. */
    method RunOnce(crashAfter: Option<nat>) returns (count: Option<nat>)
      requires Keyed(cfg, journal)
      modifies this`views, this`attempts, this`projected
      ensures count.None? <==>
                || !EachReadable(cfg, journal, BatchOwners(old(State()), batchSize))
                || (crashAfter.Some? && crashAfter.value <= |Batch(old(State()), batchSize)|)
      ensures count.None? ==> State() == old(State())
      ensures count.Some? ==>
                && State() == Next(cfg, old(State()), Step.RunOnce(batchSize))
                && count.value == if batchSize < |Pending(old(State()))| then batchSize else |Pending(old(State()))|
    {
      var savedViews, savedAttempts := views, attempts;
      var pending := map id | id in journal && id !in projected :: journal[id].persistedAt;
      var ids := SelectFirst(pending, batchSize);
      BatchSelected(State(), pending, batchSize, ids);
      var owners := OwnersOf(journal, ids);
      var crashes := crashAfter.Some? && crashAfter.value <= |ids|;
      var ok := ProjectJobs(if crashes then owners[..crashAfter.value] else owners);
      if crashes || !ok {
        views, attempts := savedViews, savedAttempts;
        count := None;
      } else {
        projected := projected + Elements(ids);
        count := Some(|ids|);
      }
    }

    /** Project every journaled job once, in the order of their ids. */
    method Rebuild() returns (count: Option<nat>)
      requires Keyed(cfg, journal)
      modifies this`views, this`attempts
      ensures State() == Next(cfg, old(State()), Step.Rebuild)
      ensures count == if EachReadable(cfg, journal, Ordered(JobKeys(journal))) then Some(|Jobs(journal)|) else None
    {
      var savedViews, savedAttempts := views, attempts;
      var keys := JobKeys(journal);
      var jobs := SelectFirst(keys, |keys|);
      WholeListing(keys, |keys|, jobs);
      OrderedIsListing(keys);
      assert keys.Keys == Jobs(journal);
      var ok := ProjectJobs(jobs);
      if ok {
        count := Some(|jobs|);
      } else {
        views, attempts := savedViews, savedAttempts;
        count := None;
      }
    }
  }
}

/** The whole flow: scheduler tables and outbox, publisher and broker, journal, projected tables.

Publishers compete, crash and retry as in Publisher; the sink journals any message of the broker's log at any
time, any number of times or never.  So between outbox and journal events may be lost, duplicated, delayed
and reordered.
*/
module Pipeline {
  import opened Model
  import opened Reducer
  import opened Evidence
  import opened Ordering
  import opened Wire
  import opened TraceLaws
  import S = Scheduler
  import M = Simulation
  import R = Runs
  import D = Delivery
  import B = Publisher
  import P = Projection

  datatype System = System(db: S.Database, outbox: B.State, tables: P.Tables)

  datatype Move =
    | Schedule(action: S.Action)
    | Publish(step: B.Action)
    | Sink(coordinate: B.Coordinate, at: Time)
    | Project(batch: nat)
    | RebuildAll

  datatype Setup = Setup(projector: P.Config, publisher: B.Settings, hash: Document -> string)

  /** The projector decodes with event_from_wire, and the publisher's delays are positive. */
  ghost predicate Configured(setup: Setup) {
    && B.ValidSettings(setup.publisher)
    && forall d :: setup.projector.read(d) == EventFromJournal(d)
  }

  function DocumentOf(setup: Setup, e: Event): Document {
    CanonicalEdr(e, setup.hash).0
  }

  /** The outbox rows a transaction inserts beside its other writes. */
  function InsertAll(setup: Setup, s: B.State, es: seq<Event>): B.State {
    if es == [] then s
    else
      var e := es[|es| - 1];
      B.Step(setup.publisher, InsertAll(setup, s, es[..|es| - 1]), B.Insert(e.eventId, DocumentOf(setup, e)))
  }

  function NewEvents(db: S.Database, a: S.Action): seq<Event> {
    if |db.outbox| <= |S.Step(db, a).outbox| then S.Step(db, a).outbox[|db.outbox|..] else []
  }

  /** The sink keys a message by what its document says; it cannot store one that says nothing. */
  ghost function Sunk(setup: Setup, s: P.Tables, d: Document, at: Time): P.Tables {
    match setup.projector.read(d)
    case Ok(e) => P.Next(setup.projector, s, P.Insert(e.eventId, P.JournalRow(e.jobId, d, at)))
    case Err(_) => s
  }

  ghost predicate Moves(setup: Setup, p: System, m: Move, q: System) {
    match m
    case Schedule(a) =>
      S.Allowed(p.db, a) && q == System(S.Step(p.db, a), InsertAll(setup, p.outbox, NewEvents(p.db, a)), p.tables)
    case Publish(b) =>
      && !b.Insert? && B.Allowed(setup.publisher, p.outbox, b)
      && q == p.(outbox := B.Step(setup.publisher, p.outbox, b))
    case Sink(c, at) =>
      && c.offset < |B.LogOf(p.outbox.broker, c.partition)|
      && q == p.(tables := Sunk(setup, p.tables, B.LogOf(p.outbox.broker, c.partition)[c.offset], at))
    case Project(batch) => q == p.(tables := P.Next(setup.projector, p.tables, P.RunOnce(batch)))
    case RebuildAll => q == p.(tables := P.Next(setup.projector, p.tables, P.Rebuild))
  }

  function Start(now: Time, lease: nat, clock: real): System {
    System(S.Empty(now, lease), B.EmptyState(clock), P.EMPTY_TABLES)
  }

  /** A finite behaviour from empty tables; a crash is a behaviour that ends. */
  ghost predicate Behaviour(setup: Setup, start: System, states: seq<System>, moves: seq<Move>) {
    && |states| == |moves| + 1
    && (exists now, lease, clock :: start == Start(now, lease, clock)) && states[0] == start
    && forall i | 0 <= i < |moves| :: Moves(setup, states[i], moves[i], states[i + 1])
  }

  // The invariant

  ghost predicate SpecsValid(db: S.Database) {
    forall id | id in db.jobs :: S.ValidSpec(db.jobs[id].spec)
  }

  /** The journal row stored under the event's id decodes to the event. */
  predicate Journaled(cfg: P.Config, journal: P.Journal, e: Event) {
    e.eventId in journal && cfg.read(journal[e.eventId].payload) == Ok(e)
  }

  predicate Sourced(cfg: P.Config, journal: P.Journal, outbox: seq<Event>, id: EventId)
    requires id in journal
  {
    cfg.read(journal[id].payload).Ok? && cfg.read(journal[id].payload).value in outbox
  }

  ghost predicate JournalSourced(cfg: P.Config, journal: P.Journal, outbox: seq<Event>) {
    forall id | id in journal :: Sourced(cfg, journal, outbox, id)
  }

  /** Scheduler, journal and projection. */
  ghost predicate SystemInv(setup: Setup, p: System) {
    && R.Good(p.db) && SpecsValid(p.db)
    && P.Inv(setup.projector, p.tables)
    && JournalSourced(setup.projector, p.tables.journal, p.db.outbox)
  }

  /** The publisher's rows are the scheduler's outbox events, each with its document. */
  ghost predicate RowsMatch(setup: Setup, rows: map<EventId, B.OutboxRow>, outbox: seq<Event>) {
    && (forall e | e in outbox :: e.eventId in rows && rows[e.eventId].payload == DocumentOf(setup, e))
    && (forall id | id in rows :: exists e :: e in outbox && e.eventId == id)
  }

  ghost predicate IsEmitted(setup: Setup, outbox: seq<Event>, d: Document) {
    exists e :: e in outbox && d == DocumentOf(setup, e)
  }

  /** The broker holds nothing but documents of outbox events. */
  ghost predicate BrokerSourced(setup: Setup, broker: map<nat, seq<B.Payload>>, outbox: seq<Event>) {
    forall p: nat, k: nat | k < |B.LogOf(broker, p)| :: IsEmitted(setup, outbox, B.LogOf(broker, p)[k])
  }

  ghost predicate InBroker(broker: map<nat, seq<B.Payload>>, d: Document) {
    exists c :: B.InLog(broker, c, d)
  }

  /** Every journaled document is in the broker's log. */
  ghost predicate JournalInBroker(journal: P.Journal, broker: map<nat, seq<B.Payload>>) {
    forall id | id in journal :: InBroker(broker, journal[id].payload)
  }

  ghost predicate PublisherInv(setup: Setup, p: System) {
    && B.Inv(setup.publisher, p.outbox)
    && RowsMatch(setup, p.outbox.rows, p.db.outbox)
    && BrokerSourced(setup, p.outbox.broker, p.db.outbox)
    && JournalInBroker(p.tables.journal, p.outbox.broker)
  }

  lemma OutboxGrows(db: S.Database, a: S.Action)
    ensures db.outbox <= S.Step(db, a).outbox
  {
  }

  lemma SpecsStayValid(db: S.Database, a: S.Action)
    requires R.Good(db) && SpecsValid(db) && S.Allowed(db, a)
    ensures SpecsValid(S.Step(db, a))
  {
    var next := S.Step(db, a);
    forall id | id in next.jobs ensures S.ValidSpec(next.jobs[id].spec) {
      if id in db.jobs {
        R.StepGrows(db, a, id);
      }
    }
  }

  /** What the scheduler emits survives the wire unchanged. */
  lemma EmittedEventsAreSafe(db: S.Database, e: Event)
    requires R.Good(db) && SpecsValid(db) && e in db.outbox
    ensures WireSafe(e)
  {
    var s := S.Slice(db, e.jobId);
    TraceElements(db.outbox, e.jobId, e);
    assert R.JobGood(db.now, e.jobId, s);
    assert DrawnFrom(e.jobId, s.row.spec, e);
  }

  lemma {:induction false} RunSpecs(db: S.Database, actions: seq<S.Action>)
    requires R.Good(db) && SpecsValid(db) && S.ValidRun(db, actions)
    ensures SpecsValid(S.Run(db, actions))
  {
    if actions != [] {
      var init, last := actions[..|actions| - 1], actions[|actions| - 1];
      RunSpecs(db, init);
      R.RunGood(db, init);
      SpecsStayValid(S.Run(db, init), last);
    }
  }

  /** Folding the wire copies of any events a run emitted, in any order, is folding the events. */
  lemma {:induction false} EmittedCopiesFoldAlike(now: Time, lease: nat, actions: seq<S.Action>, id: JobId,
                                                  es: seq<Event>)
    requires S.ValidRun(S.Empty(now, lease), actions)
    requires forall e | e in es :: e in S.Run(S.Empty(now, lease), actions).outbox
    ensures Replay(id, Copies(es)) == Replay(id, es)
  {
    R.EmptyGood(now, lease);
    R.RunGood(S.Empty(now, lease), actions);
    RunSpecs(S.Empty(now, lease), actions);
    forall e | e in es ensures WireSafe(e) {
      EmittedEventsAreSafe(S.Run(S.Empty(now, lease), actions), e);
    }
    SafeCopies(es);
  }

  lemma EmittedDocument(setup: Setup, e: Event)
    requires Configured(setup) && WireSafe(e)
    ensures setup.projector.read(DocumentOf(setup, e)) == Ok(e)
  {
    RoundTrip(e, setup.hash);
    CarriedUnchanged(e);
  }

  // The scheduler's moves

  lemma ScheduleInv(setup: Setup, p: System, a: S.Action, outbox: B.State)
    requires SystemInv(setup, p) && S.Allowed(p.db, a)
    ensures SystemInv(setup, System(S.Step(p.db, a), outbox, p.tables))
  {
    R.StepGood(p.db, a);
    SpecsStayValid(p.db, a);
    OutboxGrows(p.db, a);
    forall id | id in p.tables.journal
      ensures Sourced(setup.projector, p.tables.journal, S.Step(p.db, a).outbox, id)
    {
      assert Sourced(setup.projector, p.tables.journal, p.db.outbox, id);
    }
  }

  lemma {:induction false} InsertAllInv(setup: Setup, s: B.State, es: seq<Event>)
    requires Configured(setup) && B.Inv(setup.publisher, s)
    ensures B.Inv(setup.publisher, InsertAll(setup, s, es))
    ensures InsertAll(setup, s, es).broker == s.broker
  {
    if es != [] {
      var init, e := es[..|es| - 1], es[|es| - 1];
      InsertAllInv(setup, s, init);
      B.StepInv(setup.publisher, InsertAll(setup, s, init), B.Insert(e.eventId, DocumentOf(setup, e)));
    }
  }

  lemma {:induction false} InsertAllRows(setup: Setup, s: B.State, outbox: seq<Event>, es: seq<Event>)
    requires RowsMatch(setup, s.rows, outbox) && DistinctIds(outbox + es)
    ensures RowsMatch(setup, InsertAll(setup, s, es).rows, outbox + es)
  {
    if es == [] {
      assert outbox + es == outbox;
    } else {
      var init, e := es[..|es| - 1], es[|es| - 1];
      assert outbox + es == (outbox + init) + [e];
      assert forall k | 0 <= k < |outbox + init| :: (outbox + init)[k] == (outbox + es)[k];
      InsertAllRows(setup, s, outbox, init);
      InsertOne(setup, InsertAll(setup, s, init), outbox + init, e);
    }
  }

  lemma InsertOne(setup: Setup, s: B.State, outbox: seq<Event>, e: Event)
    requires RowsMatch(setup, s.rows, outbox) && DistinctIds(outbox + [e])
    ensures RowsMatch(setup, B.Step(setup.publisher, s, B.Insert(e.eventId, DocumentOf(setup, e))).rows, outbox + [e])
  {
    NewId(outbox, e);
    var t := B.Step(setup.publisher, s, B.Insert(e.eventId, DocumentOf(setup, e)));
    assert e.eventId !in s.rows;
    assert t.rows.Keys == s.rows.Keys + {e.eventId} && t.rows[e.eventId].payload == DocumentOf(setup, e);
    RowAdded(setup, s.rows, t.rows, outbox, e);
  }

  lemma NewId(outbox: seq<Event>, e: Event)
    requires DistinctIds(outbox + [e])
    ensures forall f | f in outbox :: f.eventId != e.eventId
  {
    var all := outbox + [e];
    forall f | f in outbox ensures f.eventId != e.eventId {
      var k :| 0 <= k < |outbox| && outbox[k] == f;
      assert all[k] == f && all[|outbox|] == e;
    }
  }

  lemma RowAdded(setup: Setup, rows: map<EventId, B.OutboxRow>, next: map<EventId, B.OutboxRow>, outbox: seq<Event>,
                 e: Event)
    requires RowsMatch(setup, rows, outbox) && next.Keys == rows.Keys + {e.eventId} && e.eventId !in rows
    requires next[e.eventId].payload == DocumentOf(setup, e) && forall id | id in rows :: next[id] == rows[id]
    ensures RowsMatch(setup, next, outbox + [e])
  {
    var all := outbox + [e];
    assert forall f :: f in all <==> f in outbox || f == e;
    forall id | id in next ensures exists f :: f in all && f.eventId == id {
      if id == e.eventId {
        assert e in all;
      } else {
        var f :| f in outbox && f.eventId == id;
        assert f in all;
      }
    }
  }

  lemma EmittedGrows(setup: Setup, outbox: seq<Event>, more: seq<Event>, d: Document)
    requires IsEmitted(setup, outbox, d) && outbox <= more
    ensures IsEmitted(setup, more, d)
  {
    var e :| e in outbox && d == DocumentOf(setup, e);
    var k :| 0 <= k < |outbox| && outbox[k] == e;
    assert more[k] == e;
  }

  lemma BrokerStaysSourced(setup: Setup, broker: map<nat, seq<B.Payload>>, outbox: seq<Event>, more: seq<Event>)
    requires BrokerSourced(setup, broker, outbox) && outbox <= more
    ensures BrokerSourced(setup, broker, more)
  {
    forall p: nat, k: nat | k < |B.LogOf(broker, p)| ensures IsEmitted(setup, more, B.LogOf(broker, p)[k]) {
      EmittedGrows(setup, outbox, more, B.LogOf(broker, p)[k]);
    }
  }

  lemma {:induction false} SchedulePublisherInv(setup: Setup, p: System, a: S.Action)
    requires Configured(setup) && SystemInv(setup, p) && PublisherInv(setup, p) && S.Allowed(p.db, a)
    ensures PublisherInv(setup, System(S.Step(p.db, a), InsertAll(setup, p.outbox, NewEvents(p.db, a)), p.tables))
  {
    var next, es := S.Step(p.db, a), NewEvents(p.db, a);
    OutboxGrows(p.db, a);
    assert next.outbox == p.db.outbox + es;
    R.StepWellformed(p.db, a);
    InsertAllInv(setup, p.outbox, es);
    InsertAllRows(setup, p.outbox, p.db.outbox, es);
    BrokerStaysSourced(setup, p.outbox.broker, p.db.outbox, next.outbox);
  }

  // The publisher's moves

  lemma LogsGrow(setup: Setup, s: B.State, b: B.Action, outbox: seq<Event>)
    requires B.Inv(setup.publisher, s) && B.Allowed(setup.publisher, s, b) && !b.Insert?
    requires RowsMatch(setup, s.rows, outbox) && BrokerSourced(setup, s.broker, outbox)
    ensures BrokerSourced(setup, B.Step(setup.publisher, s, b).broker, outbox)
  {
    if b.Send? {
      RecordIsEmitted(setup, s, b.record, outbox);
      LogAppended(setup, s.broker, b.partition, b.record.payload, outbox);
    }
  }

  lemma LogAppended(setup: Setup, broker: map<nat, seq<B.Payload>>, partition: nat, d: Document, outbox: seq<Event>)
    requires BrokerSourced(setup, broker, outbox) && IsEmitted(setup, outbox, d)
    ensures BrokerSourced(setup, broker[partition := B.LogOf(broker, partition) + [d]], outbox)
  {
    var next := broker[partition := B.LogOf(broker, partition) + [d]];
    forall p: nat, k: nat | k < |B.LogOf(next, p)| ensures IsEmitted(setup, outbox, B.LogOf(next, p)[k]) {
      if k < |B.LogOf(broker, p)| {
        assert IsEmitted(setup, outbox, B.LogOf(broker, p)[k]);
      }
    }
  }

  /** A leased record carries the document of its outbox event. */
  lemma RecordIsEmitted(setup: Setup, s: B.State, r: B.OutboxRecord, outbox: seq<Event>)
    requires B.Inv(setup.publisher, s) && r in s.leased && RowsMatch(setup, s.rows, outbox)
    ensures IsEmitted(setup, outbox, r.payload)
  {
    assert B.RecordInv(s, r);
  }

  lemma RowsKept(setup: Setup, s: B.State, b: B.Action, outbox: seq<Event>)
    requires RowsMatch(setup, s.rows, outbox) && !b.Insert?
    ensures RowsMatch(setup, B.Step(setup.publisher, s, b).rows, outbox)
  {
    StepPayloads(setup.publisher, s, b);
    SameMatch(setup, s.rows, B.Step(setup.publisher, s, b).rows, outbox);
  }

  lemma StepPayloads(cfg: B.Settings, s: B.State, b: B.Action)
    requires !b.Insert?
    ensures SamePayloads(s.rows, B.Step(cfg, s, b).rows)
  {
  }

  predicate SamePayloads(rows: map<EventId, B.OutboxRow>, next: map<EventId, B.OutboxRow>) {
    next.Keys == rows.Keys && forall id | id in rows :: next[id].payload == rows[id].payload
  }

  lemma SameMatch(setup: Setup, rows: map<EventId, B.OutboxRow>, next: map<EventId, B.OutboxRow>, outbox: seq<Event>)
    requires RowsMatch(setup, rows, outbox) && SamePayloads(rows, next)
    ensures RowsMatch(setup, next, outbox)
  {
  }

  lemma InBrokerKept(s: B.State, t: B.State, journal: P.Journal)
    requires JournalInBroker(journal, s.broker) && B.Kept(s, t)
    ensures JournalInBroker(journal, t.broker)
  {
    forall id | id in journal ensures InBroker(t.broker, journal[id].payload) {
      var c :| B.InLog(s.broker, c, journal[id].payload);
      assert B.LogOf(s.broker, c.partition) <= B.LogOf(t.broker, c.partition);
      assert B.InLog(t.broker, c, journal[id].payload);
    }
  }

  lemma PublishInv(setup: Setup, p: System, b: B.Action)
    requires Configured(setup) && PublisherInv(setup, p) && B.Allowed(setup.publisher, p.outbox, b) && !b.Insert?
    ensures PublisherInv(setup, p.(outbox := B.Step(setup.publisher, p.outbox, b)))
  {
    B.StepInv(setup.publisher, p.outbox, b);
    LogsGrow(setup, p.outbox, b, p.db.outbox);
    RowsKept(setup, p.outbox, b, p.db.outbox);
    InBrokerKept(p.outbox, B.Step(setup.publisher, p.outbox, b), p.tables.journal);
  }

  // The sink's and the projector's moves

  lemma SinkReads(setup: Setup, p: System, c: B.Coordinate) returns (e: Event)
    requires Configured(setup) && SystemInv(setup, p) && PublisherInv(setup, p)
    requires c.offset < |B.LogOf(p.outbox.broker, c.partition)|
    ensures var d := B.LogOf(p.outbox.broker, c.partition)[c.offset];
            e in p.db.outbox && setup.projector.read(d) == Ok(e)
  {
    var d := B.LogOf(p.outbox.broker, c.partition)[c.offset];
    assert IsEmitted(setup, p.db.outbox, d);
    e :| e in p.db.outbox && d == DocumentOf(setup, e);
    EmittedEventsAreSafe(p.db, e);
    EmittedDocument(setup, e);
  }

  lemma SinkSystem(setup: Setup, p: System, d: Document, at: Time, e: Event)
    requires SystemInv(setup, p) && e in p.db.outbox && setup.projector.read(d) == Ok(e)
    ensures SystemInv(setup, p.(tables := Sunk(setup, p.tables, d, at)))
  {
    var row := P.JournalRow(e.jobId, d, at);
    P.InsertInv(setup.projector, p.tables, e.eventId, row);
    JournalOne(setup.projector, p.tables.journal, p.db.outbox, e, row);
  }

  lemma SinkPublisher(setup: Setup, p: System, c: B.Coordinate, d: Document, at: Time)
    requires PublisherInv(setup, p) && B.InLog(p.outbox.broker, c, d)
    ensures PublisherInv(setup, p.(tables := Sunk(setup, p.tables, d, at)))
  {
    assert InBroker(p.outbox.broker, d);
  }

  lemma SinkInv(setup: Setup, p: System, c: B.Coordinate, at: Time)
    requires Configured(setup) && SystemInv(setup, p) && PublisherInv(setup, p)
    requires c.offset < |B.LogOf(p.outbox.broker, c.partition)|
    ensures var q := p.(tables := Sunk(setup, p.tables, B.LogOf(p.outbox.broker, c.partition)[c.offset], at));
            SystemInv(setup, q) && PublisherInv(setup, q)
  {
    var d := B.LogOf(p.outbox.broker, c.partition)[c.offset];
    var e := SinkReads(setup, p, c);
    SinkSystem(setup, p, d, at, e);
    SinkPublisher(setup, p, c, d, at);
  }

  lemma JournalOne(cfg: P.Config, journal: P.Journal, outbox: seq<Event>, e: Event, row: P.JournalRow)
    requires JournalSourced(cfg, journal, outbox) && e in outbox && cfg.read(row.payload) == Ok(e)
    ensures JournalSourced(cfg, journal[e.eventId := row], outbox)
  {
    var next := journal[e.eventId := row];
    forall id | id in next ensures Sourced(cfg, next, outbox, id) {
      if id != e.eventId {
        assert Sourced(cfg, journal, outbox, id);
      }
    }
  }

  lemma ProjectorInv(setup: Setup, p: System, a: P.Step)
    requires SystemInv(setup, p) && PublisherInv(setup, p) && (a.RunOnce? || a.Rebuild?)
    ensures var q := p.(tables := P.Next(setup.projector, p.tables, a)); SystemInv(setup, q) && PublisherInv(setup, q)
  {
    P.NextInv(setup.projector, p.tables, a);
    P.JournalKept(setup.projector, p.tables, a);
  }

  lemma MoveInv(setup: Setup, p: System, m: Move, q: System)
    requires Configured(setup) && SystemInv(setup, p) && PublisherInv(setup, p) && Moves(setup, p, m, q)
    ensures SystemInv(setup, q) && PublisherInv(setup, q)
  {
    match m {
      case Schedule(a) =>
        ScheduleInv(setup, p, a, q.outbox);
        SchedulePublisherInv(setup, p, a);
      case Publish(b) => PublishInv(setup, p, b);
      case Sink(c, at) => SinkInv(setup, p, c, at);
      case Project(batch) => ProjectorInv(setup, p, P.RunOnce(batch));
      case RebuildAll => ProjectorInv(setup, p, P.Rebuild);
    }
  }

  lemma StartInv(setup: Setup, now: Time, lease: nat, clock: real)
    ensures SystemInv(setup, Start(now, lease, clock)) && PublisherInv(setup, Start(now, lease, clock))
  {
    R.EmptyGood(now, lease);
  }

  /** Every state of every behaviour satisfies the invariants. */
  lemma {:induction false} BehaviourInv(setup: Setup, start: System, states: seq<System>, moves: seq<Move>, i: nat)
    requires Configured(setup) && Behaviour(setup, start, states, moves) && i < |states|
    ensures SystemInv(setup, states[i]) && PublisherInv(setup, states[i])
  {
    if i == 0 {
      var now, lease, clock :| start == Start(now, lease, clock);
      StartInv(setup, now, lease, clock);
    } else {
      BehaviourInv(setup, start, states, moves, i - 1);
      MoveInv(setup, states[i - 1], moves[i - 1], states[i]);
    }
  }

  /** In any state of any behaviour: a journaled document is one the broker holds, and a row whose
      published_at is set has the document of its own outbox event in the broker, at its coordinate. */
  lemma {:induction false} JournalComesThroughTheBroker(setup: Setup, start: System, states: seq<System>,
                                                        moves: seq<Move>, i: nat, id: EventId)
    requires Configured(setup) && Behaviour(setup, start, states, moves) && i < |states|
    ensures var p := states[i];
            && (id in p.tables.journal ==>
                  InBroker(p.outbox.broker, p.tables.journal[id].payload)
                  && exists e :: e in p.db.outbox && e.eventId == id
                                 && p.tables.journal[id].payload == DocumentOf(setup, e))
            && (id in p.outbox.rows && p.outbox.rows[id].publishedAt.Some? ==>
                  p.outbox.rows[id].coordinate.Some?
                  && exists e :: e in p.db.outbox && e.eventId == id
                                 && B.InLog(p.outbox.broker, p.outbox.rows[id].coordinate.value, DocumentOf(setup, e)))
  {
    BehaviourInv(setup, start, states, moves, i);
    var p := states[i];
    if id in p.tables.journal {
      JournaledDocument(setup, p, id);
    }
    if id in p.outbox.rows {
      assert B.RowInv(setup.publisher, p.outbox, id);
    }
  }

  lemma JournaledDocument(setup: Setup, p: System, id: EventId)
    requires Configured(setup) && SystemInv(setup, p) && PublisherInv(setup, p) && id in p.tables.journal
    ensures exists e :: e in p.db.outbox && e.eventId == id && p.tables.journal[id].payload == DocumentOf(setup, e)
  {
    var d := p.tables.journal[id].payload;
    var c :| B.InLog(p.outbox.broker, c, d);
    assert IsEmitted(setup, p.db.outbox, B.LogOf(p.outbox.broker, c.partition)[c.offset]);
    var e :| e in p.db.outbox && d == DocumentOf(setup, e);
    EmittedEventsAreSafe(p.db, e);
    EmittedDocument(setup, e);
    assert P.RowReads(setup.projector, id, p.tables.journal[id]);
  }

  // What the projected tables say about the scheduler

  lemma SourcedJobs(setup: Setup, p: System, job: JobId)
    requires SystemInv(setup, p)
    ensures P.JobReadable(setup.projector, p.tables.journal, job)
  {
    forall id | id in p.tables.journal && p.tables.journal[id].jobId == job
      ensures P.RowReads(setup.projector, id, p.tables.journal[id])
    {
      assert Sourced(setup.projector, p.tables.journal, p.db.outbox, id);
    }
  }

  /** A job's history is its journaled outbox events. */
  lemma HistoryElements(cfg: P.Config, journal: P.Journal, job: JobId, e: Event)
    requires P.JobReadable(cfg, journal, job) && P.Keyed(cfg, journal)
    ensures e in P.History(cfg, journal, job) <==> Journaled(cfg, journal, e) && e.jobId == job
  {
    var rows := P.JobRows(journal, job);
    var ids, all := Ordered(rows), P.History(cfg, journal, job);
    OrderedIsListing(rows);
    ListingComplete(rows, ids);
    if e in all {
      var k :| 0 <= k < |all| && all[k] == e;
      assert P.RowReads(cfg, ids[k], journal[ids[k]]);
    }
    if Journaled(cfg, journal, e) && e.jobId == job {
      assert P.RowReads(cfg, e.eventId, journal[e.eventId]);
      assert e.eventId in Elements(ids);
      var k :| 0 <= k < |ids| && ids[k] == e.eventId;
      assert all[k] == e;
    }
  }

  lemma {:induction false} HistoryIsDelivery(setup: Setup, p: System, job: JobId)
    requires SystemInv(setup, p)
    ensures P.JobReadable(setup.projector, p.tables.journal, job)
    ensures forall e | e in P.History(setup.projector, p.tables.journal, job) ::
              e in Trace(p.db.outbox, job) && job in p.db.jobs
  {
    var cfg, journal := setup.projector, p.tables.journal;
    SourcedJobs(setup, p, job);
    forall e | e in P.History(cfg, journal, job) ensures e in Trace(p.db.outbox, job) && job in p.db.jobs {
      HistoryElements(cfg, journal, job, e);
      assert Sourced(cfg, journal, p.db.outbox, e.eventId);
      TraceElements(p.db.outbox, job, e);
    }
  }

  /** The job has a journal row, and none of its rows waits for the projector. */
  ghost predicate Settled(p: System, job: JobId) {
    job in P.Jobs(p.tables.journal) && P.UpToDate(p.tables, job)
  }

  lemma SettledShows(setup: Setup, p: System, job: JobId)
    requires SystemInv(setup, p) && Settled(p, job)
    ensures P.Shows(setup.projector, p.tables, job) && job in p.db.jobs
  {
    var id :| id in p.tables.journal && p.tables.journal[id].jobId == job;
    assert P.RowReads(setup.projector, id, p.tables.journal[id]);
    assert Sourced(setup.projector, p.tables.journal, p.db.outbox, id);
  }

  ghost predicate SuccessJournaled(cfg: P.Config, journal: P.Journal, job: JobId) {
    exists e :: Journaled(cfg, journal, e) && e.jobId == job && IsSuccess(e)
  }

  /** What the tables show of a job, given the events that reached the journal, in the journal's order. */
  ghost predicate VisibleOutcome(setup: Setup, p: System, job: JobId) {
    && P.JobReadable(setup.projector, p.tables.journal, job)
    && job in p.tables.views && job in p.db.jobs
    && D.ShowsOutcome(S.Slice(p.db, job), p.tables.views[job].snapshot,
                      P.History(setup.projector, p.tables.journal, job))
    && p.tables.views[job].recorded == p.tables.views[job].snapshot.status
    && (p.tables.views[job].recorded.Succeeded? <==> SuccessJournaled(setup.projector, p.tables.journal, job))
  }

  /** Once none of a job's rows waits for the projector, SUCCEEDED is shown exactly when the success event is
      journaled, FAILED and RETRIES_EXHAUSTED exactly when no start journaled after the closing event reopens
      the job. */
  lemma {:induction false} SettledOutcome(setup: Setup, start: System, states: seq<System>, moves: seq<Move>,
                                          i: nat, job: JobId)
    requires Configured(setup) && Behaviour(setup, start, states, moves) && i < |states|
    requires Settled(states[i], job)
    ensures VisibleOutcome(setup, states[i], job)
  {
    BehaviourInv(setup, start, states, moves, i);
    SettledShows(setup, states[i], job);
    OutcomeShown(setup, states[i], job);
  }

  lemma HistoryHasDistinctIds(cfg: P.Config, journal: P.Journal, job: JobId)
    requires P.JobReadable(cfg, journal, job)
    ensures DistinctIds(P.History(cfg, journal, job))
  {
    var all := P.History(cfg, journal, job);
    forall i, k | 0 <= i < k < |all| ensures all[i].eventId != all[k].eventId {
      P.HistoryDistinct(cfg, journal, job, k);
      assert all[i] in all[..k];
    }
  }

  lemma OutcomeShown(setup: Setup, p: System, job: JobId)
    requires SystemInv(setup, p) && job in p.db.jobs
    ensures P.JobReadable(setup.projector, p.tables.journal, job)
    ensures var j := P.Folded(setup.projector, p.tables.journal, job);
            && D.ShowsOutcome(S.Slice(p.db, job), j, P.History(setup.projector, p.tables.journal, job))
            && (j.status.Succeeded? <==> SuccessJournaled(setup.projector, p.tables.journal, job))
            && (j.status.Succeeded? ==> p.db.jobs[job].status.RowSucceeded?)
  {
    var cfg, journal := setup.projector, p.tables.journal;
    SourcedJobs(setup, p, job);
    var hist := P.History(cfg, journal, job);
    HistoryIsDelivery(setup, p, job);
    HistoryHasDistinctIds(cfg, journal, job);
    assert R.JobGood(p.db.now, job, S.Slice(p.db, job));
    D.OutcomeUnderAnyDelivery(p.db.now, job, S.Slice(p.db, job), hist);
    if e :| e in hist && IsSuccess(e) {
      HistoryElements(cfg, journal, job, e);
    }
    if e :| Journaled(cfg, journal, e) && e.jobId == job && IsSuccess(e) {
      HistoryElements(cfg, journal, job, e);
    }
  }

  // What is visible at any time, however far the projector lags behind

  /** A terminal status the tables show is the one the job's row has for good, and was not brought about by
      recovery; SUCCEEDED is backed by a journaled success. */
  ghost predicate RealView(setup: Setup, p: System, job: JobId) {
    job in p.tables.views ==>
      && job in p.db.jobs
      && p.tables.views[job].recorded == p.tables.views[job].snapshot.status
      && (p.tables.views[job].recorded.Terminal() ==>
            && R.FinalStatus(p.db.jobs[job].status) == Some(p.tables.views[job].recorded)
            && M.Closed(S.Slice(p.db, job)))
      && (p.tables.views[job].recorded.Succeeded? ==> SuccessJournaled(setup.projector, p.tables.journal, job))
  }

  /** One projection of a readable job shows what is real. */
  lemma ShownIsReal(setup: Setup, p: System, q: System, job: JobId)
    requires SystemInv(setup, p) && q.db == p.db && q.tables.journal == p.tables.journal
    requires job in P.Jobs(p.tables.journal) && P.Shows(setup.projector, q.tables, job)
    ensures RealView(setup, q, job)
    ensures SuccessJournaled(setup.projector, q.tables.journal, job) ==> q.tables.views[job].recorded.Succeeded?
  {
    var id :| id in p.tables.journal && p.tables.journal[id].jobId == job;
    assert Sourced(setup.projector, p.tables.journal, p.db.outbox, id);
    assert P.RowReads(setup.projector, id, p.tables.journal[id]);
    OutcomeShown(setup, p, job);
  }

  /** A pass or a rebuild projects a job or leaves its rows alone. */
  lemma ProjectedOrSame(setup: Setup, p: System, a: P.Step, job: JobId)
    requires SystemInv(setup, p) && (a.RunOnce? || a.Rebuild?)
    ensures var t := P.Next(setup.projector, p.tables, a);
            && t.journal == p.tables.journal
            && (P.SameRows(p.tables, t, job) || (job in P.Jobs(p.tables.journal) && P.Shows(setup.projector, t, job)))
  {
    P.NextOnOneJob(setup.projector, p.tables, a, job);
  }

  /** What every move keeps of what is visible of a job. */
  ghost predicate KeepsReal(setup: Setup, p: System, q: System, job: JobId) {
    RealView(setup, p, job) ==>
      && RealView(setup, q, job)
      && (job in p.tables.views && p.tables.views[job].recorded.Succeeded? ==>
            job in q.tables.views && q.tables.views[job].recorded.Succeeded?)
  }

  lemma ScheduleReal(setup: Setup, p: System, a: S.Action, outbox: B.State, job: JobId)
    requires SystemInv(setup, p) && S.Allowed(p.db, a)
    ensures KeepsReal(setup, p, System(S.Step(p.db, a), outbox, p.tables), job)
  {
    if job in p.db.jobs {
      R.StepGrows(p.db, a, job);
    }
  }

  lemma SinkReal(setup: Setup, p: System, q: System, job: JobId)
    requires q.db == p.db && q.tables.views == p.tables.views
    requires forall id | id in p.tables.journal ::
               id in q.tables.journal && q.tables.journal[id] == p.tables.journal[id]
    ensures KeepsReal(setup, p, q, job)
  {
    if e :| Journaled(setup.projector, p.tables.journal, e) && e.jobId == job && IsSuccess(e) {
      assert Journaled(setup.projector, q.tables.journal, e);
    }
  }

  lemma ProjectReal(setup: Setup, p: System, a: P.Step, job: JobId)
    requires SystemInv(setup, p) && (a.RunOnce? || a.Rebuild?)
    ensures KeepsReal(setup, p, p.(tables := P.Next(setup.projector, p.tables, a)), job)
  {
    var q := p.(tables := P.Next(setup.projector, p.tables, a));
    ProjectedOrSame(setup, p, a, job);
    if !P.SameRows(p.tables, q.tables, job) {
      ShownIsReal(setup, p, q, job);
    }
  }

  lemma MoveReal(setup: Setup, p: System, m: Move, q: System, job: JobId)
    requires SystemInv(setup, p) && Moves(setup, p, m, q)
    ensures KeepsReal(setup, p, q, job)
  {
    match m {
      case Schedule(a) => ScheduleReal(setup, p, a, q.outbox, job);
      case Publish(b) => SinkReal(setup, p, q, job);
      case Sink(c, at) => SinkReal(setup, p, q, job);
      case Project(batch) => ProjectReal(setup, p, P.RunOnce(batch), job);
      case RebuildAll => ProjectReal(setup, p, P.Rebuild, job);
    }
  }

  lemma {:induction false} StepReal(setup: Setup, start: System, states: seq<System>, moves: seq<Move>, i: nat,
                                    job: JobId)
    requires Configured(setup) && Behaviour(setup, start, states, moves) && i < |moves|
    ensures KeepsReal(setup, states[i], states[i + 1], job)
  {
    BehaviourInv(setup, start, states, moves, i);
    MoveReal(setup, states[i], moves[i], states[i + 1], job);
  }

  /** In every state of every behaviour a terminal status the tables show is the scheduler's own final one,
      whatever was lost, duplicated or reordered on the way and however far the projector lags; and SUCCEEDED
      is shown only if a success is journaled. */
  lemma {:induction false} VisibleOutcomeIsReal(setup: Setup, start: System, states: seq<System>, moves: seq<Move>,
                                                i: nat, job: JobId)
    requires Configured(setup) && Behaviour(setup, start, states, moves) && i < |states|
    ensures RealView(setup, states[i], job)
  {
    if i > 0 {
      VisibleOutcomeIsReal(setup, start, states, moves, i - 1, job);
      StepReal(setup, start, states, moves, i - 1, job);
    }
  }

  ghost predicate ShowsSuccess(p: System, job: JobId) {
    job in p.tables.views && p.tables.views[job].recorded.Succeeded?
  }

  lemma SuccessStep(setup: Setup, p: System, q: System, job: JobId)
    requires KeepsReal(setup, p, q, job) && RealView(setup, p, job) && ShowsSuccess(p, job)
    ensures ShowsSuccess(q, job)
  {
  }

  lemma {:induction false} SuccessNext(setup: Setup, start: System, states: seq<System>, moves: seq<Move>, i: nat,
                                       job: JobId)
    requires Configured(setup) && Behaviour(setup, start, states, moves) && i < |moves|
    requires ShowsSuccess(states[i], job)
    ensures ShowsSuccess(states[i + 1], job)
  {
    VisibleOutcomeIsReal(setup, start, states, moves, i, job);
    StepReal(setup, start, states, moves, i, job);
    SuccessStep(setup, states[i], states[i + 1], job);
  }

  /** A visible SUCCEEDED is never withdrawn. */
  lemma {:induction false} VisibleSuccessStays(setup: Setup, start: System, states: seq<System>, moves: seq<Move>,
                                               i: nat, k: nat, job: JobId)
    requires Configured(setup) && Behaviour(setup, start, states, moves) && i <= k < |states|
    requires ShowsSuccess(states[i], job)
    ensures ShowsSuccess(states[k], job)
    decreases k - i
  {
    if i < k {
      SuccessNext(setup, start, states, moves, i, job);
      VisibleSuccessStays(setup, start, states, moves, i + 1, k, job);
    }
  }

  /** Every outbox event of the job has reached the journal. */
  ghost predicate FullyJournaled(cfg: P.Config, p: System, job: JobId) {
    forall e | e in p.db.outbox && e.jobId == job :: Journaled(cfg, p.tables.journal, e)
  }

  lemma {:induction false} FullHistory(setup: Setup, p: System, job: JobId)
    requires SystemInv(setup, p) && FullyJournaled(setup.projector, p, job)
    ensures P.JobReadable(setup.projector, p.tables.journal, job)
    ensures forall e :: e in P.History(setup.projector, p.tables.journal, job) <==> e in Trace(p.db.outbox, job)
  {
    HistoryIsDelivery(setup, p, job);
    forall e | e in Trace(p.db.outbox, job) ensures e in P.History(setup.projector, p.tables.journal, job) {
      TraceElements(p.db.outbox, job, e);
      HistoryElements(setup.projector, p.tables.journal, job, e);
    }
  }

  ghost predicate SameEvidence(j: JobVisibility, k: JobVisibility) {
    forall f :: Value(f, j) == Value(f, k)
  }

  /** Success, evidence instants and attempt numbers are the scheduler's own.  Nothing is said of other
      statuses, the retry fields and completed_at, which depend on the order of arrival. */
  ghost predicate AgreesOnEvidence(p: System, job: JobId) {
    && job in p.tables.views && job in p.tables.attempts && job in p.db.jobs
    && (p.tables.views[job].recorded.Succeeded? <==> p.db.jobs[job].status.RowSucceeded?)
    && SameEvidence(p.tables.views[job].snapshot, Replay(job, Trace(p.db.outbox, job)))
    && p.tables.attempts[job].Keys == S.Slice(p.db, job).attempts.Keys
  }

  /** Once everything a job emitted is journaled, in whatever order, the visible status is SUCCEEDED exactly
      when the row is; every evidence instant is the one an in-order replay gives; and the visible attempts
      are the attempts the scheduler made. */
  lemma {:induction false} FullDeliveryAgrees(setup: Setup, start: System, states: seq<System>, moves: seq<Move>,
                                              i: nat, job: JobId)
    requires Configured(setup) && Behaviour(setup, start, states, moves) && i < |states|
    requires Settled(states[i], job) && FullyJournaled(setup.projector, states[i], job)
    ensures AgreesOnEvidence(states[i], job)
  {
    BehaviourInv(setup, start, states, moves, i);
    FullAgrees(setup, states[i], job);
  }

  lemma FullAgrees(setup: Setup, p: System, job: JobId)
    requires SystemInv(setup, p) && Settled(p, job) && FullyJournaled(setup.projector, p, job)
    ensures AgreesOnEvidence(p, job)
  {
    SettledShows(setup, p, job);
    OutcomeShown(setup, p, job);
    if p.db.jobs[job].status.RowSucceeded? {
      FullSuccess(setup, p, job);
    }
    FullEvidence(setup, p, job);
  }

  lemma FullSuccess(setup: Setup, p: System, job: JobId)
    requires SystemInv(setup, p) && job in p.db.jobs && FullyJournaled(setup.projector, p, job)
    requires p.db.jobs[job].status.RowSucceeded?
    ensures SuccessJournaled(setup.projector, p.tables.journal, job)
  {
    var s := S.Slice(p.db, job);
    assert R.JobGood(p.db.now, job, s);
    SucceededRowHasEvent(p.db.now, job, s);
    var e :| e in s.trace && IsSuccess(e);
    TraceElements(p.db.outbox, job, e);
  }

  lemma {:induction false} FullEvidence(setup: Setup, p: System, job: JobId)
    requires SystemInv(setup, p) && job in p.db.jobs && FullyJournaled(setup.projector, p, job)
    ensures P.JobReadable(setup.projector, p.tables.journal, job)
    ensures var j, k := P.Folded(setup.projector, p.tables.journal, job), Replay(job, Trace(p.db.outbox, job));
            SameEvidence(j, k) && j.attempts.Keys == S.Slice(p.db, job).attempts.Keys
  {
    FullHistory(setup, p, job);
    var s := S.Slice(p.db, job);
    assert R.JobGood(p.db.now, job, s);
    EvidenceOrderIndependent(job, P.History(setup.projector, p.tables.journal, job), s.trace);
    R.AgreementShown(p.db.now, s, Replay(job, s.trace));
  }

  // Delivery in order

  /** The events were persisted in this order. */
  ghost predicate InOrder(journal: P.Journal, es: seq<Event>) {
    && (forall e | e in es :: e.eventId in journal)
    && forall i, k | 0 <= i < k < |es| ::
         var before, after := journal[es[i].eventId].persistedAt, journal[es[k].eventId].persistedAt;
         before < after || (before == after && es[i].eventId < es[k].eventId)
  }

  function IdsOf(es: seq<Event>): seq<EventId> {
    seq(|es|, i requires 0 <= i < |es| => es[i].eventId)
  }

  /** The journal holds exactly these events of the job. */
  ghost predicate Holds(cfg: P.Config, journal: P.Journal, job: JobId, es: seq<Event>) {
    && (forall e | e in es :: Journaled(cfg, journal, e) && e.jobId == job)
    && (forall id | id in P.JobRows(journal, job) :: id in IdsOf(es))
  }

  lemma {:induction false} TraceJournaled(cfg: P.Config, p: System, job: JobId, e: Event)
    requires FullyJournaled(cfg, p, job) && e in Trace(p.db.outbox, job)
    ensures Journaled(cfg, p.tables.journal, e) && e.jobId == job
  {
    TraceElements(p.db.outbox, job, e);
  }

  lemma {:induction false} HoldsTrace(cfg: P.Config, p: System, job: JobId)
    requires P.Keyed(cfg, p.tables.journal) && JournalSourced(cfg, p.tables.journal, p.db.outbox)
    requires FullyJournaled(cfg, p, job)
    ensures Holds(cfg, p.tables.journal, job, Trace(p.db.outbox, job))
  {
    forall e | e in Trace(p.db.outbox, job) ensures Journaled(cfg, p.tables.journal, e) && e.jobId == job {
      TraceJournaled(cfg, p, job, e);
    }
    forall id | id in P.JobRows(p.tables.journal, job) ensures id in IdsOf(Trace(p.db.outbox, job)) {
      RowInTrace(cfg, p.tables.journal, p.db.outbox, job, id);
    }
  }

  lemma {:induction false} RowInTrace(cfg: P.Config, journal: P.Journal, outbox: seq<Event>, job: JobId, id: EventId)
    requires id in journal && P.RowReads(cfg, id, journal[id]) && Sourced(cfg, journal, outbox, id)
    requires journal[id].jobId == job
    ensures id in IdsOf(Trace(outbox, job))
  {
    var e, es := cfg.read(journal[id].payload).value, Trace(outbox, job);
    TraceElements(outbox, job, e);
    var k :| 0 <= k < |es| && es[k] == e;
    assert IdsOf(es)[k] == id;
  }

  lemma HeldKeys(cfg: P.Config, journal: P.Journal, job: JobId, es: seq<Event>, id: EventId)
    requires P.Keyed(cfg, journal) && P.JobReadable(cfg, journal, job) && Holds(cfg, journal, job, es)
    ensures id in IdsOf(es) <==> id in P.JobRows(journal, job)
  {
    if id in IdsOf(es) {
      var k :| 0 <= k < |es| && IdsOf(es)[k] == id;
      assert Journaled(cfg, journal, es[k]) && es[k].jobId == job;
      assert P.RowReads(cfg, id, journal[id]);
    }
  }

  lemma HeldHistory(cfg: P.Config, journal: P.Journal, job: JobId, es: seq<Event>)
    requires P.Keyed(cfg, journal) && P.JobReadable(cfg, journal, job) && Holds(cfg, journal, job, es)
    requires Ordered(P.JobRows(journal, job)) == IdsOf(es)
    ensures P.History(cfg, journal, job) == es
  {
    var all := P.History(cfg, journal, job);
    OrderedIsListing(P.JobRows(journal, job));
    assert |all| == |es|;
    forall k | 0 <= k < |es| ensures all[k] == es[k] {
      assert Journaled(cfg, journal, es[k]) && IdsOf(es)[k] == es[k].eventId;
    }
  }

  lemma InOrderHistory(cfg: P.Config, journal: P.Journal, job: JobId, es: seq<Event>)
    requires P.Keyed(cfg, journal) && P.JobReadable(cfg, journal, job)
    requires Holds(cfg, journal, job, es) && InOrder(journal, es)
    ensures P.History(cfg, journal, job) == es
  {
    forall id ensures id in IdsOf(es) <==> id in P.JobRows(journal, job) {
      HeldKeys(cfg, journal, job, es, id);
    }
    WholeOrder(P.JobRows(journal, job), IdsOf(es));
    HeldHistory(cfg, journal, job, es);
  }

  /** A strictly ordered list of all the keys is the listing. */
  lemma {:induction false} WholeOrder(rows: map<EventId, Time>, ids: seq<EventId>)
    requires forall id :: id in ids <==> id in rows
    requires forall i, k | 0 <= i < k < |ids| :: Before(rows[ids[i]], ids[i], rows[ids[k]], ids[k])
    ensures ids == Ordered(rows)
  {
    assert Distinct(ids);
    DistinctCount(ids);
    assert Elements(ids) == rows.Keys;
    FirstIsPrefix(rows, |rows|, ids);
    OrderedIsListing(rows);
  }

  /** If moreover the rows were persisted in the order of emission, the projected aggregate is the in-order
      replay itself, so it agrees with the scheduler's tables in every respect the simulation covers. */
  lemma {:induction false} InOrderDeliveryMatchesTables(setup: Setup, start: System, states: seq<System>,
                                                        moves: seq<Move>, i: nat, job: JobId)
    requires Configured(setup) && Behaviour(setup, start, states, moves) && i < |states|
    requires Settled(states[i], job) && FullyJournaled(setup.projector, states[i], job)
    requires InOrder(states[i].tables.journal, Trace(states[i].db.outbox, job))
    ensures job in states[i].tables.views && job in states[i].db.jobs
    ensures R.ReplayMatches(S.Slice(states[i].db, job), states[i].tables.views[job].snapshot)
  {
    BehaviourInv(setup, start, states, moves, i);
    var p := states[i];
    SettledShows(setup, p, job);
    SourcedJobs(setup, p, job);
    HoldsTrace(setup.projector, p, job);
    InOrderHistory(setup.projector, p.tables.journal, job, Trace(p.db.outbox, job));
    assert R.JobGood(p.db.now, job, S.Slice(p.db, job));
    R.AgreementShown(p.db.now, S.Slice(p.db, job), Replay(job, Trace(p.db.outbox, job)));
  }
}

/** The at-least-once outbox publisher of outbox/publisher.py: leases, broker appends and backoff.

Instants and delays are real numbers.  The broker is an append-only log per partition.  Publishers compete:
any holder of a lease record may act on it at any time, or never.
*/
module Publisher {
  import opened Model
  import opened Wire

  type Token = nat

  /** What a row carries to the broker. */
  type Payload = Document

  datatype Settings = Settings(lease: real, retryInitial: real, retryMax: real)

  predicate ValidSettings(cfg: Settings) {
    cfg.lease > 0.0 && cfg.retryInitial > 0.0 && cfg.retryMax > 0.0
  }

  datatype Coordinate = Coordinate(partition: nat, offset: nat)

  datatype OutboxRow = OutboxRow(
    payload: Payload,
    createdAt: real,
    publishedAt: Option<real>,
    publishAttempts: nat,
    nextAttemptAt: real,
    leaseToken: Option<Token>,
    leaseExpiresAt: Option<real>,
    coordinate: Option<Coordinate>)

  /** What a publisher remembers of a row it leased. */
  datatype OutboxRecord = OutboxRecord(eventId: EventId, payload: Payload, attempts: nat, token: Token)

  /** The table, the broker, and what has been handed out: lease records, broker acknowledgements, and the
      backoff of every failure that took effect. */
  datatype State = State(
    now: real,
    nextToken: Token,
    rows: map<EventId, OutboxRow>,
    broker: map<nat, seq<Payload>>,
    leased: set<OutboxRecord>,
    acked: set<(OutboxRecord, Coordinate)>,
    waits: map<EventId, seq<real>>)

  datatype Action =
    | Tick(elapsed: real)
    | Insert(id: EventId, payload: Payload)
    | Lease(ids: set<EventId>)
    | Send(record: OutboxRecord, partition: nat, answered: bool)
    | SettleSent(sent: OutboxRecord, coordinate: Coordinate)
    | SettleFailed(failed: OutboxRecord, delay: real)

  function Power(n: nat): real {
    if n == 0 then 1.0 else 2.0 * Power(n - 1)
  }

  /** min(retry_max, retry_initial * 2 ** attempts). */
  function Ceiling(cfg: Settings, attempts: nat): real {
    var raw := cfg.retryInitial * Power(attempts);
    if raw < cfg.retryMax then raw else cfg.retryMax
  }

  predicate BackoffOf(cfg: Settings, attempts: nat, delay: real) {
    Ceiling(cfg, attempts) / 2.0 <= delay <= Ceiling(cfg, attempts)
  }

  predicate Leasable(now: real, row: OutboxRow) {
    && row.publishedAt.None? && row.nextAttemptAt <= now
    && (row.leaseExpiresAt.None? || row.leaseExpiresAt.value < now)
  }

  /** The row is the one the record leased, and the lease was neither released nor taken over. */
  predicate Holds(rows: map<EventId, OutboxRow>, r: OutboxRecord) {
    r.eventId in rows && rows[r.eventId].leaseToken == Some(r.token)
  }

  function LogOf(broker: map<nat, seq<Payload>>, partition: nat): seq<Payload> {
    if partition in broker then broker[partition] else []
  }

  predicate InLog(broker: map<nat, seq<Payload>>, c: Coordinate, payload: Payload) {
    c.offset < |LogOf(broker, c.partition)| && LogOf(broker, c.partition)[c.offset] == payload
  }

  function WaitsOf(waits: map<EventId, seq<real>>, id: EventId): seq<real> {
    if id in waits then waits[id] else []
  }

  function RecordOf(id: EventId, row: OutboxRow, token: Token): OutboxRecord {
    OutboxRecord(id, row.payload, row.publishAttempts, token)
  }

  function LeasedRow(row: OutboxRow, token: Token, expires: real): OutboxRow {
    row.(leaseToken := Some(token), leaseExpiresAt := Some(expires))
  }

  function Step(cfg: Settings, s: State, a: Action): State {
    match a
    case Tick(elapsed) => s.(now := s.now + elapsed)
    case Insert(id, payload) =>
      if id in s.rows then s
      else s.(rows := s.rows[id := OutboxRow(payload, s.now, None, 0, s.now, None, None, None)])
    case Lease(ids) =>
      s.(rows := map id | id in s.rows ::
           if id in ids && Leasable(s.now, s.rows[id])
           then LeasedRow(s.rows[id], s.nextToken, s.now + cfg.lease) else s.rows[id],
         leased := s.leased + set id | id in ids && id in s.rows && Leasable(s.now, s.rows[id]) ::
           RecordOf(id, s.rows[id], s.nextToken),
         nextToken := s.nextToken + 1)
    case Send(r, partition, answered) =>
      var log := LogOf(s.broker, partition);
      s.(broker := s.broker[partition := log + [r.payload]],
         acked := if answered then s.acked + {(r, Coordinate(partition, |log|))} else s.acked)
    case SettleSent(r, c) =>
      if Holds(s.rows, r)
      then s.(rows := s.rows[r.eventId :=
        s.rows[r.eventId].(publishedAt := Some(s.now), coordinate := Some(c),
                           leaseToken := None, leaseExpiresAt := None)])
      else s
    case SettleFailed(r, delay) =>
      if Holds(s.rows, r)
      then s.(rows := s.rows[r.eventId :=
                s.rows[r.eventId].(publishAttempts := s.rows[r.eventId].publishAttempts + 1,
                                   nextAttemptAt := s.now + delay, leaseToken := None, leaseExpiresAt := None)],
              waits := s.waits[r.eventId := WaitsOf(s.waits, r.eventId) + [delay]])
      else s
  }

  /** Publishers act on records they leased, on acknowledgements they received, and back off as coded. */
  predicate Allowed(cfg: Settings, s: State, a: Action) {
    match a
    case Tick(elapsed) => elapsed >= 0.0
    case Send(r, _, _) => r in s.leased
    case SettleSent(r, c) => (r, c) in s.acked
    case SettleFailed(r, delay) => r in s.leased && BackoffOf(cfg, r.attempts, delay)
    case _ => true
  }

  // The invariant

  predicate RowInv(cfg: Settings, s: State, id: EventId)
    requires id in s.rows
  {
    var row := s.rows[id];
    && row.leaseToken.Some? == row.leaseExpiresAt.Some?
    && (row.leaseToken.Some? ==> row.leaseToken.value < s.nextToken && row.publishedAt.None?)
    && (row.leaseExpiresAt.Some? ==> row.leaseExpiresAt.value <= s.now + cfg.lease)
    && row.nextAttemptAt <= s.now + cfg.retryMax
    && (row.publishedAt.Some? ==> row.coordinate.Some? && InLog(s.broker, row.coordinate.value, row.payload))
  }

  /** As many waits as effective failures, the k-th within the k-th backoff. */
  ghost predicate WaitsInv(cfg: Settings, s: State, id: EventId)
    requires id in s.rows
  {
    && |WaitsOf(s.waits, id)| == s.rows[id].publishAttempts
    && forall k | 0 <= k < |WaitsOf(s.waits, id)| :: BackoffOf(cfg, k, WaitsOf(s.waits, id)[k])
  }

  predicate RecordInv(s: State, r: OutboxRecord) {
    && r.eventId in s.rows && r.token < s.nextToken && r.payload == s.rows[r.eventId].payload
    && (Holds(s.rows, r) ==> s.rows[r.eventId].publishAttempts == r.attempts)
  }

  ghost predicate Inv(cfg: Settings, s: State) {
    && (forall id | id in s.rows :: RowInv(cfg, s, id) && WaitsInv(cfg, s, id))
    && (forall r | r in s.leased :: RecordInv(s, r))
    && (forall r, c | (r, c) in s.acked :: r in s.leased && InLog(s.broker, c, r.payload))
    && s.waits.Keys <= s.rows.Keys
  }

  /** What no step undoes: a published row is final, payloads stay, the broker only grows. */
  ghost predicate Kept(s: State, t: State) {
    && (forall id | id in s.rows ::
          id in t.rows && t.rows[id].payload == s.rows[id].payload
          && (s.rows[id].publishedAt.Some? ==> t.rows[id] == s.rows[id]))
    && (forall p :: LogOf(s.broker, p) <= LogOf(t.broker, p))
    && s.leased <= t.leased && s.now <= t.now
  }

  /** A record whose lease was released or taken over. */
  predicate LostLease(s: State, r: OutboxRecord) {
    r in s.leased && !Holds(s.rows, r)
  }

  /** A new row may be leased at once. */
  lemma InsertedIsLeasable(cfg: Settings, s: State, id: EventId, payload: Payload)
    requires id !in s.rows
    ensures var t := Step(cfg, s, Insert(id, payload));
            && id in t.rows && Leasable(t.now, t.rows[id]) && t.rows[id].payload == payload
            && t.rows[id].publishAttempts == 0 && t.rows[id].createdAt == s.now && t.rows[id].nextAttemptAt == s.now
  {
  }

  /** The backoff ceiling starts at the initial delay and doubles with every failure, up to the maximum. */
  lemma CeilingShape(cfg: Settings, attempts: nat)
    requires ValidSettings(cfg)
    ensures Ceiling(cfg, 0) == if cfg.retryInitial < cfg.retryMax then cfg.retryInitial else cfg.retryMax
    ensures var doubled := 2.0 * Ceiling(cfg, attempts);
            Ceiling(cfg, attempts + 1) == if doubled < cfg.retryMax then doubled else cfg.retryMax
  {
    DoubledPower(cfg.retryInitial, attempts);
  }

  lemma DoubledPower(x: real, n: nat)
    ensures x * Power(n + 1) == 2.0 * (x * Power(n))
  {
  }

  lemma CeilingBounds(cfg: Settings, attempts: nat)
    ensures Ceiling(cfg, attempts) <= cfg.retryMax
  {
  }

  lemma LeaseInv(cfg: Settings, s: State, ids: set<EventId>)
    requires ValidSettings(cfg) && Inv(cfg, s)
    ensures Inv(cfg, Step(cfg, s, Lease(ids)))
    ensures Kept(s, Step(cfg, s, Lease(ids)))
  {
    var t := Step(cfg, s, Lease(ids));
    forall id | id in t.rows ensures RowInv(cfg, t, id) && WaitsInv(cfg, t, id) {
      assert RowInv(cfg, s, id) && WaitsInv(cfg, s, id);
    }
    forall r | r in t.leased ensures RecordInv(t, r) {
      if r in s.leased {
        assert RecordInv(s, r);
      }
    }
  }

  lemma SendInv(cfg: Settings, s: State, r: OutboxRecord, partition: nat, answered: bool)
    requires ValidSettings(cfg) && Inv(cfg, s) && r in s.leased
    ensures Inv(cfg, Step(cfg, s, Send(r, partition, answered)))
    ensures Kept(s, Step(cfg, s, Send(r, partition, answered)))
  {
    var t := Step(cfg, s, Send(r, partition, answered));
    forall id | id in t.rows ensures RowInv(cfg, t, id) && WaitsInv(cfg, t, id) {
      assert RowInv(cfg, s, id) && WaitsInv(cfg, s, id);
    }
    forall q | q in t.leased ensures RecordInv(t, q) {
      assert RecordInv(s, q);
    }
  }

  lemma PublishedInv(cfg: Settings, s: State, r: OutboxRecord, c: Coordinate)
    requires ValidSettings(cfg) && Inv(cfg, s) && (r, c) in s.acked
    ensures Inv(cfg, Step(cfg, s, SettleSent(r, c)))
    ensures Kept(s, Step(cfg, s, SettleSent(r, c)))
  {
    var t := Step(cfg, s, SettleSent(r, c));
    assert RecordInv(s, r);
    forall id | id in t.rows ensures RowInv(cfg, t, id) && WaitsInv(cfg, t, id) {
      assert RowInv(cfg, s, id) && WaitsInv(cfg, s, id);
    }
    forall q | q in t.leased ensures RecordInv(t, q) {
      assert RecordInv(s, q);
    }
  }

  lemma FailedRow(cfg: Settings, s: State, r: OutboxRecord, delay: real, id: EventId)
    requires ValidSettings(cfg) && Inv(cfg, s) && r in s.leased && BackoffOf(cfg, r.attempts, delay) && id in s.rows
    ensures var t := Step(cfg, s, SettleFailed(r, delay)); id in t.rows && RowInv(cfg, t, id) && WaitsInv(cfg, t, id)
  {
    assert RecordInv(s, r);
    assert RowInv(cfg, s, id) && WaitsInv(cfg, s, id);
    CeilingBounds(cfg, r.attempts);
  }

  lemma FailedInv(cfg: Settings, s: State, r: OutboxRecord, delay: real)
    requires ValidSettings(cfg) && Inv(cfg, s) && r in s.leased && BackoffOf(cfg, r.attempts, delay)
    ensures Inv(cfg, Step(cfg, s, SettleFailed(r, delay)))
    ensures Kept(s, Step(cfg, s, SettleFailed(r, delay)))
  {
    var t := Step(cfg, s, SettleFailed(r, delay));
    assert RecordInv(s, r) && RowInv(cfg, s, r.eventId);
    forall id | id in t.rows ensures RowInv(cfg, t, id) && WaitsInv(cfg, t, id) {
      FailedRow(cfg, s, r, delay, id);
    }
    forall q | q in t.leased ensures RecordInv(t, q) {
      assert RecordInv(s, q);
    }
  }

  lemma QuietInv(cfg: Settings, s: State, a: Action)
    requires ValidSettings(cfg) && Inv(cfg, s) && Allowed(cfg, s, a) && (a.Tick? || a.Insert?)
    ensures Inv(cfg, Step(cfg, s, a))
    ensures Kept(s, Step(cfg, s, a))
  {
    var t := Step(cfg, s, a);
    forall id | id in t.rows ensures RowInv(cfg, t, id) && WaitsInv(cfg, t, id) {
      assert id in s.rows ==> RowInv(cfg, s, id) && WaitsInv(cfg, s, id);
    }
    forall q | q in t.leased ensures RecordInv(t, q) {
      assert RecordInv(s, q);
    }
  }

  lemma StepInv(cfg: Settings, s: State, a: Action)
    requires ValidSettings(cfg) && Inv(cfg, s) && Allowed(cfg, s, a)
    ensures Inv(cfg, Step(cfg, s, a)) && Kept(s, Step(cfg, s, a))
  {
    match a {
      case Tick(_) => QuietInv(cfg, s, a);
      case Insert(_, _) => QuietInv(cfg, s, a);
      case Lease(ids) => LeaseInv(cfg, s, ids);
      case Send(r, partition, answered) => SendInv(cfg, s, r, partition, answered);
      case SettleSent(r, c) => PublishedInv(cfg, s, r, c);
      case SettleFailed(r, delay) => FailedInv(cfg, s, r, delay);
    }
  }

  lemma LostLeaseStep(cfg: Settings, s: State, a: Action, r: OutboxRecord)
    requires ValidSettings(cfg) && Inv(cfg, s) && Allowed(cfg, s, a) && LostLease(s, r)
    ensures LostLease(Step(cfg, s, a), r)
  {
    assert RecordInv(s, r);
  }

  // Runs

  function Run(cfg: Settings, s: State, actions: seq<Action>): State {
    Fold((st: State, a: Action) => Step(cfg, st, a), s, actions)
  }

  predicate ValidRun(cfg: Settings, s: State, actions: seq<Action>) {
    actions == [] ||
    (ValidRun(cfg, s, actions[..|actions| - 1])
     && Allowed(cfg, Run(cfg, s, actions[..|actions| - 1]), actions[|actions| - 1]))
  }

  function EmptyState(now: real): State {
    State(now, 0, map[], map[], {}, {}, map[])
  }

  lemma KeptTransitive(s: State, t: State, u: State)
    requires Kept(s, t) && Kept(t, u)
    ensures Kept(s, u)
  {
  }

  /** Every state of every run keeps the invariant, and nothing a step has settled is undone later:
      published_at is written at most once, with a coordinate at which the broker holds the payload. */
  lemma {:induction false} RunInv(cfg: Settings, s: State, actions: seq<Action>)
    requires ValidSettings(cfg) && Inv(cfg, s) && ValidRun(cfg, s, actions)
    ensures Inv(cfg, Run(cfg, s, actions)) && Kept(s, Run(cfg, s, actions))
  {
    if actions != [] {
      var init, last := actions[..|actions| - 1], actions[|actions| - 1];
      RunInv(cfg, s, init);
      StepInv(cfg, Run(cfg, s, init), last);
      KeptTransitive(s, Run(cfg, s, init), Run(cfg, s, actions));
    }
  }

  /** A holder whose lease was taken over never holds it again, and its settling calls change no row. */
  lemma {:induction false} LostLeaseIsFinal(cfg: Settings, s: State, actions: seq<Action>, r: OutboxRecord, a: Action)
    requires ValidSettings(cfg) && Inv(cfg, s) && ValidRun(cfg, s, actions) && LostLease(s, r)
    requires (a.SettleSent? && a.sent == r) || (a.SettleFailed? && a.failed == r)
    ensures LostLease(Run(cfg, s, actions), r)
    ensures Step(cfg, Run(cfg, s, actions), a) == Run(cfg, s, actions)
  {
    if actions != [] {
      var init, last := actions[..|actions| - 1], actions[|actions| - 1];
      LostLeaseIsFinal(cfg, s, init, r, a);
      RunInv(cfg, s, init);
      LostLeaseStep(cfg, Run(cfg, s, init), last, r);
    }
  }

  /** After any run: a published row's payload is in the broker at the stored coordinate; the attempts a
      holder remembers are the row's own; the k-th effective failure of a row waited between half and all of
      the k-th backoff ceiling. */
  lemma {:induction false} PublishedRowsAreInTheBroker(cfg: Settings, now: real, actions: seq<Action>, id: EventId,
                                                       r: OutboxRecord, k: nat)
    requires ValidSettings(cfg) && ValidRun(cfg, EmptyState(now), actions)
    ensures var s := Run(cfg, EmptyState(now), actions);
            && (id in s.rows && s.rows[id].publishedAt.Some? ==>
                  s.rows[id].coordinate.Some? && InLog(s.broker, s.rows[id].coordinate.value, s.rows[id].payload))
            && (r in s.leased && Holds(s.rows, r) ==> s.rows[r.eventId].publishAttempts == r.attempts)
            && (id in s.rows ==> |WaitsOf(s.waits, id)| == s.rows[id].publishAttempts)
            && (id in s.rows && k < |WaitsOf(s.waits, id)| ==> BackoffOf(cfg, k, WaitsOf(s.waits, id)[k]))
  {
    RunInv(cfg, EmptyState(now), actions);
    var s := Run(cfg, EmptyState(now), actions);
    if id in s.rows {
      assert RowInv(cfg, s, id) && WaitsInv(cfg, s, id);
    }
    if r in s.leased {
      assert RecordInv(s, r);
    }
  }

  /** No lease and no backoff blocks a row for long: after any run, an unpublished row that nobody touches
      for more than the lease and at least the longest backoff can be leased. */
  lemma {:induction false} UnpublishedBecomesLeasable(cfg: Settings, now: real, actions: seq<Action>, id: EventId,
                                                      idle: real)
    requires ValidSettings(cfg) && ValidRun(cfg, EmptyState(now), actions)
    requires id in Run(cfg, EmptyState(now), actions).rows
    requires Run(cfg, EmptyState(now), actions).rows[id].publishedAt.None?
    requires idle > cfg.lease && idle >= cfg.retryMax
    ensures var s := Run(cfg, EmptyState(now), actions); Leasable(s.now + idle, s.rows[id])
  {
    RunInv(cfg, EmptyState(now), actions);
    assert RowInv(cfg, Run(cfg, EmptyState(now), actions), id);
  }

  // How long a lease and a backoff last

  /** The record holds its row, at least until the given instant. */
  predicate HoldsUntil(s: State, r: OutboxRecord, until: real) {
    Holds(s.rows, r) && s.rows[r.eventId].leaseExpiresAt.Some? && until <= s.rows[r.eventId].leaseExpiresAt.value
  }

  /** The action settles this very record. */
  predicate Settles(a: Action, r: OutboxRecord) {
    (a.SettleSent? && a.sent == r) || (a.SettleFailed? && a.failed == r)
  }

  lemma SameHolder(cfg: Settings, s: State, r: OutboxRecord, q: OutboxRecord)
    requires Inv(cfg, s) && r in s.leased && q in s.leased && Holds(s.rows, r) && Holds(s.rows, q)
    requires q.eventId == r.eventId
    ensures q == r
  {
    assert RecordInv(s, r) && RecordInv(s, q);
  }

  lemma AckedRecord(cfg: Settings, s: State, r: OutboxRecord, c: Coordinate)
    requires Inv(cfg, s) && (r, c) in s.acked
    ensures r in s.leased
  {
  }

  lemma HoldsStep(cfg: Settings, s: State, a: Action, r: OutboxRecord, until: real)
    requires Inv(cfg, s) && Allowed(cfg, s, a) && r in s.leased && HoldsUntil(s, r, until)
    requires !Settles(a, r) && s.now <= until
    ensures HoldsUntil(Step(cfg, s, a), r, until)
  {
    match a {
      case SettleSent(q, c) =>
        AckedRecord(cfg, s, q, c);
        if q.eventId == r.eventId && Holds(s.rows, q) {
          SameHolder(cfg, s, r, q);
        }
      case SettleFailed(q, _) =>
        if q.eventId == r.eventId && Holds(s.rows, q) {
          SameHolder(cfg, s, r, q);
        }
      case _ =>
    }
  }

  lemma {:induction false} StillHolds(cfg: Settings, s: State, actions: seq<Action>, r: OutboxRecord, until: real)
    requires ValidSettings(cfg) && Inv(cfg, s) && ValidRun(cfg, s, actions) && r in s.leased && HoldsUntil(s, r, until)
    requires (forall a | a in actions :: !Settles(a, r)) && Run(cfg, s, actions).now <= until
    ensures r in Run(cfg, s, actions).leased && HoldsUntil(Run(cfg, s, actions), r, until)
  {
    if actions != [] {
      var init, last := actions[..|actions| - 1], actions[|actions| - 1];
      assert init + [last] == actions;
      RunInv(cfg, s, init);
      StepInv(cfg, Run(cfg, s, init), last);
      StillHolds(cfg, s, init, r, until);
      HoldsStep(cfg, Run(cfg, s, init), last, r, until);
    }
  }

  lemma LeaseHolds(cfg: Settings, s: State, ids: set<EventId>, id: EventId)
    requires id in ids && id in s.rows && Leasable(s.now, s.rows[id])
    ensures var t, r := Step(cfg, s, Lease(ids)), RecordOf(id, s.rows[id], s.nextToken);
            && t.now == s.now && r in t.leased && HoldsUntil(t, r, s.now + cfg.lease)
            && t.rows[id].leaseExpiresAt == Some(s.now + cfg.lease)
  {
    var r := RecordOf(id, s.rows[id], s.nextToken);
    assert r in set i | i in ids && i in s.rows && Leasable(s.now, s.rows[i]) :: RecordOf(i, s.rows[i], s.nextToken);
  }

  /** A lease lasts: until the instant of leasing plus the lease, nobody but the holder settles the row and
      nobody leases it again. */
  lemma {:induction false} LeaseLasts(cfg: Settings, s: State, ids: set<EventId>, id: EventId, later: seq<Action>)
    requires ValidSettings(cfg) && Inv(cfg, s) && id in ids && id in s.rows && Leasable(s.now, s.rows[id])
    requires ValidRun(cfg, Step(cfg, s, Lease(ids)), later)
    requires forall a | a in later :: !Settles(a, RecordOf(id, s.rows[id], s.nextToken))
    requires Run(cfg, Step(cfg, s, Lease(ids)), later).now <= s.now + cfg.lease
    ensures var end := Run(cfg, Step(cfg, s, Lease(ids)), later);
            Holds(end.rows, RecordOf(id, s.rows[id], s.nextToken)) && !Leasable(end.now, end.rows[id])
  {
    LeaseInv(cfg, s, ids);
    LeaseHolds(cfg, s, ids, id);
    StillHolds(cfg, Step(cfg, s, Lease(ids)), later, RecordOf(id, s.rows[id], s.nextToken), s.now + cfg.lease);
  }

  /** The row waits, unleased, until the given instant. */
  predicate Waits(s: State, id: EventId, row: OutboxRow, until: real) {
    id in s.rows && s.rows[id] == row && row.leaseToken.None? && row.nextAttemptAt == until
  }

  lemma WaitsStep(cfg: Settings, s: State, a: Action, id: EventId, row: OutboxRow, until: real)
    requires Waits(s, id, row, until) && s.now < until
    ensures Waits(Step(cfg, s, a), id, row, until)
  {
  }

  lemma {:induction false} StillWaits(cfg: Settings, s: State, actions: seq<Action>, id: EventId, row: OutboxRow,
                                      until: real)
    requires ValidSettings(cfg) && Inv(cfg, s) && ValidRun(cfg, s, actions) && Waits(s, id, row, until)
    requires Run(cfg, s, actions).now < until
    ensures Waits(Run(cfg, s, actions), id, row, until)
  {
    if actions != [] {
      var init, last := actions[..|actions| - 1], actions[|actions| - 1];
      assert init + [last] == actions;
      RunInv(cfg, s, init);
      StepInv(cfg, Run(cfg, s, init), last);
      StillWaits(cfg, s, init, id, row, until);
      WaitsStep(cfg, Run(cfg, s, init), last, id, row, until);
    }
  }

  lemma FailedWaits(cfg: Settings, s: State, r: OutboxRecord, delay: real)
    requires Holds(s.rows, r)
    ensures var t := Step(cfg, s, SettleFailed(r, delay));
            && r.eventId in t.rows && Waits(t, r.eventId, t.rows[r.eventId], s.now + delay)
            && t.rows[r.eventId].publishAttempts == s.rows[r.eventId].publishAttempts + 1
            && t.rows[r.eventId].publishedAt == s.rows[r.eventId].publishedAt
  {
  }

  /** A failure that takes effect keeps the row from everybody for its whole delay, and from then on an
      unpublished row may be leased again. */
  lemma {:induction false} BackoffHolds(cfg: Settings, s: State, r: OutboxRecord, delay: real, later: seq<Action>)
    requires ValidSettings(cfg) && Inv(cfg, s) && r in s.leased && BackoffOf(cfg, r.attempts, delay) && Holds(s.rows, r)
    requires ValidRun(cfg, Step(cfg, s, SettleFailed(r, delay)), later)
    ensures var next := Step(cfg, s, SettleFailed(r, delay));
            var end := Run(cfg, next, later);
            && (end.now < s.now + delay ==>
                  && r.eventId in end.rows && end.rows[r.eventId] == next.rows[r.eventId]
                  && !Leasable(end.now, end.rows[r.eventId]))
            && (r.eventId in end.rows && end.rows[r.eventId] == next.rows[r.eventId] && end.now >= s.now + delay ==>
                  Leasable(end.now, end.rows[r.eventId]))
  {
    var next := Step(cfg, s, SettleFailed(r, delay));
    assert RowInv(cfg, s, r.eventId);
    FailedInv(cfg, s, r, delay);
    FailedWaits(cfg, s, r, delay);
    if Run(cfg, next, later).now < s.now + delay {
      StillWaits(cfg, next, later, r.eventId, next.rows[r.eventId], s.now + delay);
    }
    assert RowInv(cfg, next, r.eventId);
  }

  // The publisher itself

  lemma {:induction false} RunOne(cfg: Settings, s: State, actions: seq<Action>, a: Action)
    ensures Run(cfg, s, actions + [a]) == Step(cfg, Run(cfg, s, actions), a)
    ensures ValidRun(cfg, s, actions) && Allowed(cfg, Run(cfg, s, actions), a) ==> ValidRun(cfg, s, actions + [a])
  {
    assert (actions + [a])[..|actions|] == actions;
  }

  /** How sending one record goes: acknowledged and recorded, acknowledged but not recorded, or raised before
      or after the broker appended it. */
  datatype Delivery =
    | Acknowledged(partition: nat)
    | Unrecorded(stored: nat)
    | RaisedBefore
    | RaisedAfter(lost: nat)

  /** The random point between half and all of the backoff ceiling. */
  type Jitter = x: real | 0.5 <= x <= 1.0 witness 1.0

  ghost predicate Reached(cfg: Settings, s: State, actions: seq<Action>, t: State) {
    ValidRun(cfg, s, actions) && t == Run(cfg, s, actions)
  }

  predicate OthersKept(before: map<EventId, OutboxRow>, after: map<EventId, OutboxRow>, id: EventId) {
    forall other | other in before && other != id :: other in after && after[other] == before[other]
  }

  // The ORDER BY next_attempt_at, created_at ... LIMIT of the leasing query; it leaves ties open

  predicate NoLater(a: OutboxRow, b: OutboxRow) {
    a.nextAttemptAt < b.nextAttemptAt || (a.nextAttemptAt == b.nextAttemptAt && a.createdAt <= b.createdAt)
  }

  function DueRows(now: real, rows: map<EventId, OutboxRow>, locked: set<EventId>): set<EventId> {
    set id | id in rows && id !in locked && Leasable(now, rows[id])
  }

  ghost predicate FirstDue(now: real, rows: map<EventId, OutboxRow>, locked: set<EventId>, limit: nat,
                           chosen: set<EventId>) {
    var due := DueRows(now, rows, locked);
    && chosen <= due
    && |chosen| == (if |due| < limit then |due| else limit)
    && forall id, other | id in chosen && other in due && other !in chosen ::
         || rows[id].nextAttemptAt < rows[other].nextAttemptAt
         || (rows[id].nextAttemptAt == rows[other].nextAttemptAt && rows[id].createdAt <= rows[other].createdAt)
  }

  method LeastDue(rows: map<EventId, OutboxRow>, ids: set<EventId>) returns (least: EventId)
    requires ids != {} && ids <= rows.Keys
    ensures least in ids && forall id | id in ids :: NoLater(rows[least], rows[id])
  {
    least :| least in ids;
    var rest := ids - {least};
    while rest != {}
      invariant least in ids && rest <= ids
      invariant forall id | id in ids && id !in rest :: NoLater(rows[least], rows[id])
      decreases rest
    {
      var id :| id in rest;
      rest := rest - {id};
      if !NoLater(rows[least], rows[id]) {
        least := id;
      }
    }
  }

  /** One lease record per leased row. */
  lemma RecordsCounted(s: State, due: set<EventId>, records: set<OutboxRecord>)
    requires forall id | id in due :: id in s.rows && Leasable(s.now, s.rows[id])
    requires records == set id | id in due :: RecordOf(id, s.rows[id], s.nextToken)
    ensures |records| == |due|
  {
    if due == {} {
      assert records == {};
    } else {
      var id :| id in due;
      var r := RecordOf(id, s.rows[id], s.nextToken);
      RecordsCounted(s, due - {id}, records - {r});
    }
  }

  /** A batch under way: what is not yet settled is still held. */
  ghost predicate Settling(cfg: Settings, start: State, actions: seq<Action>, here: State, records: set<OutboxRecord>,
                           rest: set<OutboxRecord>, deliveries: EventId -> Delivery)
  {
    && Reached(cfg, start, actions, here) && Inv(cfg, here) && here.now == start.now
    && OwnRows(records) && rest <= records <= here.leased
    && (forall r | r in rest :: Holds(here.rows, r))
    && (forall r | r in records && r !in rest :: Settled(here.rows, r, deliveries(r.eventId), here.now))
  }

  lemma SettlingNext(cfg: Settings, start: State, actions: seq<Action>, here: State, more: seq<Action>, next: State,
                     records: set<OutboxRecord>, rest: set<OutboxRecord>, r: OutboxRecord,
                     deliveries: EventId -> Delivery)
    requires Settling(cfg, start, actions, here, records, rest, deliveries) && r in rest
    requires Reached(cfg, here, more, next) && Inv(cfg, next)
    requires Settled(next.rows, r, deliveries(r.eventId), next.now)
    requires next.leased == here.leased && next.now == here.now && OthersKept(here.rows, next.rows, r.eventId)
    ensures Settling(cfg, start, actions + more, next, records, rest - {r}, deliveries)
  {
    ReachedCompose(cfg, start, actions, more);
    OthersUntouched(here.rows, next.rows, records, r);
    forall q | q in records && q !in rest - {r} ensures Settled(next.rows, q, deliveries(q.eventId), next.now) {
      if q != r {
        assert Settled(here.rows, q, deliveries(q.eventId), here.now);
      }
    }
  }

  predicate OwnRows(records: set<OutboxRecord>) {
    forall r, q | r in records && q in records && r.eventId == q.eventId :: r == q
  }

  lemma OthersUntouched(before: map<EventId, OutboxRow>, after: map<EventId, OutboxRow>, records: set<OutboxRecord>,
                        r: OutboxRecord)
    requires OthersKept(before, after, r.eventId) && OwnRows(records) && r in records
    ensures forall q | q in records && q != r && q.eventId in before ::
              q.eventId in after && after[q.eventId] == before[q.eventId]
  {
  }

  /** Where the broker puts the next message of a partition. */
  function NextCoordinate(broker: map<nat, seq<Payload>>, partition: nat): Coordinate {
    Coordinate(partition, |LogOf(broker, partition)|)
  }

  ghost function DeliveryActions(s: State, r: OutboxRecord, delivery: Delivery, wait: real): seq<Action> {
    match delivery
    case Acknowledged(p) => [Send(r, p, true), SettleSent(r, NextCoordinate(s.broker, p))]
    case Unrecorded(p) => [Send(r, p, true), SettleFailed(r, wait)]
    case RaisedBefore => [SettleFailed(r, wait)]
    case RaisedAfter(p) => [Send(r, p, false), SettleFailed(r, wait)]
  }

  ghost function AfterDelivery(cfg: Settings, s: State, r: OutboxRecord, delivery: Delivery, wait: real): State {
    match delivery
    case Acknowledged(p) => Step(cfg, Step(cfg, s, Send(r, p, true)), SettleSent(r, NextCoordinate(s.broker, p)))
    case Unrecorded(p) => Step(cfg, Step(cfg, s, Send(r, p, true)), SettleFailed(r, wait))
    case RaisedBefore => Step(cfg, s, SettleFailed(r, wait))
    case RaisedAfter(p) => Step(cfg, Step(cfg, s, Send(r, p, false)), SettleFailed(r, wait))
  }

  lemma RunTwo(cfg: Settings, s: State, a: Action, b: Action)
    requires Allowed(cfg, s, a) && Allowed(cfg, Step(cfg, s, a), b)
    ensures Reached(cfg, s, [a, b], Step(cfg, Step(cfg, s, a), b))
  {
    RunOne(cfg, s, [], a);
    RunOne(cfg, s, [a], b);
    assert [] + [a] == [a] && [a] + [b] == [a, b];
  }

  lemma DeliveryRun(cfg: Settings, s: State, r: OutboxRecord, delivery: Delivery, wait: real)
    requires ValidSettings(cfg) && Inv(cfg, s) && r in s.leased
    requires delivery.Acknowledged? || BackoffOf(cfg, r.attempts, wait)
    ensures Reached(cfg, s, DeliveryActions(s, r, delivery, wait), AfterDelivery(cfg, s, r, delivery, wait))
    ensures Inv(cfg, AfterDelivery(cfg, s, r, delivery, wait))
  {
    match delivery {
      case Acknowledged(p) => RunTwo(cfg, s, Send(r, p, true), SettleSent(r, NextCoordinate(s.broker, p)));
      case Unrecorded(p) => RunTwo(cfg, s, Send(r, p, true), SettleFailed(r, wait));
      case RaisedBefore =>
        RunOne(cfg, s, [], SettleFailed(r, wait));
        assert [] + [SettleFailed(r, wait)] == [SettleFailed(r, wait)];
      case RaisedAfter(p) => RunTwo(cfg, s, Send(r, p, false), SettleFailed(r, wait));
    }
    RunInv(cfg, s, DeliveryActions(s, r, delivery, wait));
  }

  lemma DeliverySettles(cfg: Settings, s: State, r: OutboxRecord, delivery: Delivery, wait: real)
    requires RecordInv(s, r)
    ensures var t := AfterDelivery(cfg, s, r, delivery, wait);
            && (Holds(s.rows, r) ==> Settled(t.rows, r, delivery, s.now))
            && t.leased == s.leased && t.now == s.now && OthersKept(s.rows, t.rows, r.eventId)
  {
  }

  lemma {:induction false} ReachedCompose(cfg: Settings, s: State, first: seq<Action>, more: seq<Action>)
    requires ValidRun(cfg, s, first) && ValidRun(cfg, Run(cfg, s, first), more)
    ensures Reached(cfg, s, first + more, Run(cfg, Run(cfg, s, first), more))
  {
    RunsCompose(cfg, s, first, more);
  }

  lemma LeaseRun(cfg: Settings, s: State, due: set<EventId>)
    requires ValidSettings(cfg) && Inv(cfg, s)
    ensures Reached(cfg, s, [Lease(due)], Step(cfg, s, Lease(due)))
    ensures Inv(cfg, Step(cfg, s, Lease(due)))
  {
    RunOne(cfg, s, [], Lease(due));
    assert [] + [Lease(due)] == [Lease(due)];
    LeaseInv(cfg, s, due);
  }

  /** The row a record leased shows how its delivery went. */
  predicate Settled(rows: map<EventId, OutboxRow>, r: OutboxRecord, delivery: Delivery, now: real) {
    && r.eventId in rows
    && if delivery.Acknowledged? then rows[r.eventId].publishedAt == Some(now)
       else rows[r.eventId].publishAttempts == r.attempts + 1 && rows[r.eventId].leaseToken.None?
  }

  lemma {:induction false} RunsCompose(cfg: Settings, s: State, first: seq<Action>, more: seq<Action>)
    requires ValidRun(cfg, s, first) && ValidRun(cfg, Run(cfg, s, first), more)
    ensures ValidRun(cfg, s, first + more) && Run(cfg, s, first + more) == Run(cfg, Run(cfg, s, first), more)
    decreases |more|
  {
    if more == [] {
      assert first + more == first;
    } else {
      var init, last := more[..|more| - 1], more[|more| - 1];
      RunsCompose(cfg, s, first, init);
      RunOne(cfg, s, first + init, last);
      RunOne(cfg, Run(cfg, s, first), init, last);
      assert init + [last] == more && first + more == (first + init) + [last];
    }
  }

  lemma {:induction false} PowerPositive(n: nat)
    ensures Power(n) > 0.0
  {
    if n > 0 {
      PowerPositive(n - 1);
    }
  }

  lemma JitteredBackoff(cfg: Settings, attempts: nat, jitter: Jitter)
    requires ValidSettings(cfg)
    ensures BackoffOf(cfg, attempts, Ceiling(cfg, attempts) * jitter)
  {
    PowerPositive(attempts);
    Scaled(cfg.retryInitial, Power(attempts));
    var ceiling := Ceiling(cfg, attempts);
    Scaled(ceiling, jitter - 0.5);
    Scaled(ceiling, 1.0 - jitter);
    assert ceiling * jitter - ceiling / 2.0 == ceiling * (jitter - 0.5);
    assert ceiling - ceiling * jitter == ceiling * (1.0 - jitter);
  }

  lemma Scaled(x: real, y: real)
    requires x > 0.0 && y >= 0.0
    ensures x * y >= 0.0 && (y > 0.0 ==> x * y > 0.0)
  {
  }

  class OutboxPublisher {
    const cfg: Settings
    const batchSize: nat
    var now: real
    var nextToken: Token
    var rows: map<EventId, OutboxRow>
    var broker: map<nat, seq<Payload>>
    ghost var leased: set<OutboxRecord>
    ghost var acked: set<(OutboxRecord, Coordinate)>
    ghost var waits: map<EventId, seq<real>>
    var stopping: bool

    ghost function Snapshot(): State
      reads this
    {
      State(now, nextToken, rows, broker, leased, acked, waits)
    }

    constructor (cfg: Settings, batchSize: nat, now: real)
      requires ValidSettings(cfg)
      ensures this.batchSize == batchSize && this.cfg == cfg && !stopping
      ensures Snapshot() == EmptyState(now) && Inv(cfg, Snapshot())
    {
      this.cfg := cfg;
      this.batchSize := batchSize;
      this.now := now;
      this.nextToken := 0;
      this.rows := map[];
      this.broker := map[];
      this.leased := {};
      this.acked := {};
      this.waits := map[];
      this.stopping := false;
    }

    /** The due query: the first rows by next attempt and age, of those no concurrent transaction locks. */
    method SelectDue(locked: set<EventId>) returns (due: set<EventId>)
      ensures FirstDue(now, rows, locked, batchSize, due)
    {
      due := {};
      var rest := DueRows(now, rows, locked);
      while |due| < batchSize && rest != {}
        invariant |due| <= batchSize && due !! rest && due + rest == DueRows(now, rows, locked)
        invariant forall id, other | id in due && other in rest :: NoLater(rows[id], rows[other])
        decreases |rest|
      {
        var id := LeastDue(rows, rest);
        due, rest := due + {id}, rest - {id};
      }
    }

    /** Lease the leasable rows among `due`. */
    method LeaseRows(due: set<EventId>) returns (records: set<OutboxRecord>)
      modifies this`rows, this`nextToken, this`leased
      ensures Snapshot() == Step(cfg, old(Snapshot()), Lease(due))
      ensures forall id | id in due && id in old(rows) && Leasable(now, old(rows)[id]) ::
                id in rows && rows[id].leaseExpiresAt == Some(now + cfg.lease)
      ensures records == set id | id in due && id in old(rows) && Leasable(now, old(rows)[id]) ::
                           RecordOf(id, old(rows)[id], old(nextToken))
    {
      records := set id | id in due && id in rows && Leasable(now, rows[id]) :: RecordOf(id, rows[id], nextToken);
      rows := map id | id in rows ::
        if id in due && Leasable(now, rows[id]) then LeasedRow(rows[id], nextToken, now + cfg.lease) else rows[id];
      leased := leased + records;
      nextToken := nextToken + 1;
    }

    method SendRecord(r: OutboxRecord, partition: nat, answered: bool) returns (c: Coordinate)
      modifies this`broker, this`acked
      ensures Snapshot() == Step(cfg, old(Snapshot()), Send(r, partition, answered))
      ensures c == NextCoordinate(old(broker), partition)
    {
      var log := LogOf(broker, partition);
      broker := broker[partition := log + [r.payload]];
      c := Coordinate(partition, |log|);
      if answered {
        acked := acked + {(r, c)};
      }
    }

    method MarkPublished(r: OutboxRecord, c: Coordinate)
      modifies this`rows
      ensures Snapshot() == Step(cfg, old(Snapshot()), SettleSent(r, c))
    {
      if Holds(rows, r) {
        rows := rows[r.eventId := rows[r.eventId].(publishedAt := Some(now), coordinate := Some(c),
                                                   leaseToken := None, leaseExpiresAt := None)];
      }
    }

    method MarkFailed(r: OutboxRecord, jitter: Jitter) returns (delay: real)
      requires ValidSettings(cfg)
      modifies this`rows, this`waits
      ensures BackoffOf(cfg, r.attempts, delay)
      ensures Snapshot() == Step(cfg, old(Snapshot()), SettleFailed(r, delay))
    {
      delay := Ceiling(cfg, r.attempts) * jitter;
      JitteredBackoff(cfg, r.attempts, jitter);
      if Holds(rows, r) {
        rows := rows[r.eventId := rows[r.eventId].(publishAttempts := rows[r.eventId].publishAttempts + 1,
                                                   nextAttemptAt := now + delay, leaseToken := None,
                                                   leaseExpiresAt := None)];
        waits := waits[r.eventId := WaitsOf(waits, r.eventId) + [delay]];
      }
    }

    /** Send one leased record and settle its row. */
    method Settle(r: OutboxRecord, delivery: Delivery, jitter: Jitter) returns (ghost actions: seq<Action>)
      requires ValidSettings(cfg) && Inv(cfg, Snapshot()) && r in leased
      modifies this
      ensures Reached(cfg, old(Snapshot()), actions, Snapshot()) && Inv(cfg, Snapshot())
      ensures old(Holds(rows, r)) ==> Settled(rows, r, delivery, now)
      ensures leased == old(leased) && now == old(now) && OthersKept(old(rows), rows, r.eventId)
    {
      ghost var start := Snapshot();
      ghost var wait := 0.0;
      match delivery {
        case Acknowledged(partition) =>
          var c := SendRecord(r, partition, true);
          MarkPublished(r, c);
        case Unrecorded(partition) =>
          var _ := SendRecord(r, partition, true);
          wait := MarkFailed(r, jitter);
        case RaisedBefore =>
          wait := MarkFailed(r, jitter);
        case RaisedAfter(partition) =>
          var _ := SendRecord(r, partition, false);
          wait := MarkFailed(r, jitter);
      }
      actions := DeliveryActions(start, r, delivery, wait);
      DeliveryRun(cfg, start, r, delivery, wait);
      DeliverySettles(cfg, start, r, delivery, wait);
    }

    /** Send and settle a batch of leased records, each of its own row. */
    method SettleAll(records: set<OutboxRecord>, deliveries: EventId -> Delivery, jitter: EventId -> Jitter)
      returns (ghost actions: seq<Action>)
      requires ValidSettings(cfg) && Inv(cfg, Snapshot()) && records <= leased && OwnRows(records)
      requires forall r | r in records :: Holds(rows, r)
      modifies this
      ensures Reached(cfg, old(Snapshot()), actions, Snapshot()) && Inv(cfg, Snapshot()) && now == old(now)
      ensures forall r | r in records :: Settled(rows, r, deliveries(r.eventId), now)
    {
      ghost var start := Snapshot();
      actions := [];
      var rest := records;
      while rest != {}
        invariant Settling(cfg, start, actions, Snapshot(), records, rest, deliveries)
        decreases rest
      {
        var r :| r in rest;
        ghost var before := Snapshot();
        ghost var more := Settle(r, deliveries(r.eventId), jitter(r.eventId));
        SettlingNext(cfg, start, actions, before, more, Snapshot(), records, rest, r, deliveries);
        actions, rest := actions + more, rest - {r};
      }
    }

    /** One pass: it leases the first due rows, at most a batch of them, and settles each: published when the
        broker acknowledged it and otherwise put off by one more failure. */
    method RunOnce(locked: set<EventId>, deliveries: EventId -> Delivery, jitter: EventId -> Jitter)
      returns (count: nat, ghost due: set<EventId>, ghost actions: seq<Action>)
      requires ValidSettings(cfg) && Inv(cfg, Snapshot())
      modifies this
      ensures Reached(cfg, old(Snapshot()), actions, Snapshot()) && Inv(cfg, Snapshot())
      ensures count == |due| <= batchSize
      ensures if old(stopping) then due == {} && Snapshot() == old(Snapshot())
              else FirstDue(old(now), old(rows), locked, batchSize, due)
      ensures forall id | id in due ::
                && id in old(rows) && Leasable(now, old(rows)[id])
                && Settled(rows, RecordOf(id, old(rows)[id], old(nextToken)), deliveries(id), now)
    {
      ghost var start := Snapshot();
      if stopping {
        return 0, {}, [];
      }
      var selected := SelectDue(locked);
      var records := LeaseRows(selected);
      LeaseRun(cfg, start, selected);
      RecordsCounted(start, selected, records);
      ghost var more := SettleAll(records, deliveries, jitter);
      ReachedCompose(cfg, start, [Lease(selected)], more);
      actions := [Lease(selected)] + more;
      count, due := |records|, selected;
      forall id | id in due
        ensures Settled(rows, RecordOf(id, old(rows)[id], old(nextToken)), deliveries(id), now)
      {
        assert RecordOf(id, old(rows)[id], old(nextToken)) in records;
      }
    }
  }
}

/** The canonical EDR document of outbox/serialization.py and its reader in edr_store/projection_worker.py.

A JSON object is a map from field names to values; the text of an instant, an id or an event type is an
opaque value of its own, and the text of a whole document keeps the document.
*/
module Wire {
  import opened Model
  import opened Reducer
  import opened StatusLaws
  import opened Transitions

  datatype Field =
    | TheSchemaVersion
    | TheEventId
    | TheEventType
    | TheEventTime
    | TheIngestionTime
    | TheJobId
    | TheCorrelationId
    | TheJobType
    | TheAttemptNumber
    | TheMaxAttempts
    | TheScheduledAt
    | TheNextRetryAt
    | TheRetryable
    | TheResultCode
    | TheErrorCode
    | TheCanonicalPayload
    | ThePayloadHash

  type Document = map<Field, Json>

  datatype Json =
    | Null
    | Text(text: string)
    | Number(number: int)
    | Flag(flag: bool)
    | Instant(at: Time)
    | Key(id: nat)
    | Kind(kind: EventType)
    | Encoded(document: map<Field, Json>)

  datatype WireError = Missing(field: Field) | Unreadable(field: Field)

  datatype Result<+T> = Ok(value: T) | Err(error: WireError)
  {
    predicate IsFailure() { Err? }
    function PropagateFailure<U>(): Result<U>
      requires Err?
    {
      Err(error)
    }
    function Extract(): T
      requires Ok?
    {
      value
    }
  }

  // Writing

  function TextOrNull(text: string): Json {
    if text == "" then Null else Text(text)
  }

  function OptionalText(text: Option<string>): Json {
    if text.None? then Null else Text(text.value)
  }

  function Iso(at: Option<Time>): Json {
    if at.None? then Null else Instant(at.value)
  }

  /** The fields the digest is taken over. */
  function DomainDocument(e: Event): Document {
    map[TheSchemaVersion := Number(1),
        TheEventId := Key(e.eventId),
        TheEventType := Kind(e.eventType),
        TheEventTime := Instant(e.eventTime),
        TheIngestionTime := Instant(e.ingestionTime),
        TheJobId := Key(e.jobId),
        TheCorrelationId := TextOrNull(e.correlationId),
        TheJobType := TextOrNull(e.jobType),
        TheAttemptNumber := Number(e.attemptNumber),
        TheMaxAttempts := Number(e.maxAttempts),
        TheScheduledAt := Iso(e.scheduledAt),
        TheNextRetryAt := Iso(e.nextRetryAt),
        TheRetryable := if e.retryable.None? then Null else Flag(e.retryable.value),
        TheResultCode := OptionalText(e.resultCode),
        TheErrorCode := OptionalText(e.errorCode)]
  }

  /** `hash` is the digest function, left opaque. */
  function CanonicalEdr(e: Event, hash: Document -> string): (Document, string) {
    var value := DomainDocument(e);
    var digest := hash(value);
    (value[TheCanonicalPayload := Encoded(value)][ThePayloadHash := Text(digest)], digest)
  }

  // Reading

  /** `data.get(name)`: an absent field reads as null. */
  function Get(d: Document, name: Field): Json {
    if name in d then d[name] else Null
  }

  function ReadKey(d: Document, name: Field): Result<nat> {
    if name !in d then Err(Missing(name))
    else if d[name].Key? then Ok(d[name].id) else Err(Unreadable(name))
  }

  function ReadKind(d: Document, name: Field): Result<EventType> {
    if name !in d then Err(Missing(name))
    else if d[name].Kind? then Ok(d[name].kind) else Err(Unreadable(name))
  }

  function ReadInstant(d: Document, name: Field): Result<Time> {
    if name !in d then Err(Missing(name))
    else if d[name].Instant? then Ok(d[name].at) else Err(Unreadable(name))
  }

  /** `data.get(name) or default`. */
  function ReadText(d: Document, name: Field, default: string): Result<string> {
    match Get(d, name)
    case Null => Ok(default)
    case Text(text) => Ok(if text == "" then default else text)
    case _ => Err(Unreadable(name))
  }

  function ReadOptionalText(d: Document, name: Field): Result<Option<string>> {
    match Get(d, name)
    case Null => Ok(None)
    case Text(text) => Ok(Some(text))
    case _ => Err(Unreadable(name))
  }

  function ReadOptionalInstant(d: Document, name: Field): Result<Option<Time>> {
    match Get(d, name)
    case Null => Ok(None)
    case Instant(at) => Ok(Some(at))
    case _ => Err(Unreadable(name))
  }

  function ReadOptionalFlag(d: Document, name: Field): Result<Option<bool>> {
    match Get(d, name)
    case Null => Ok(None)
    case Flag(flag) => Ok(Some(flag))
    case _ => Err(Unreadable(name))
  }

  /** `data.get(name, default)` and the lower bound the event's constructor checks. */
  function ReadNumber(d: Document, name: Field, default: int, least: int): Result<int> {
    if name !in d then Ok(default)
    else if d[name].Number? && d[name].number >= least then Ok(d[name].number) else Err(Unreadable(name))
  }

  function EventFromWire(d: Document): Result<Event> {
    var eventId :- ReadKey(d, TheEventId);
    var eventType :- ReadKind(d, TheEventType);
    var eventTime :- ReadInstant(d, TheEventTime);
    var ingestionTime :- ReadInstant(d, TheIngestionTime);
    var jobId :- ReadKey(d, TheJobId);
    var correlationId :- ReadText(d, TheCorrelationId, "");
    var jobType :- ReadText(d, TheJobType, "GENERIC");
    var scheduledAt :- ReadOptionalInstant(d, TheScheduledAt);
    var attemptNumber :- ReadNumber(d, TheAttemptNumber, 0, 0);
    var maxAttempts :- ReadNumber(d, TheMaxAttempts, 3, 1);
    var retryable :- ReadOptionalFlag(d, TheRetryable);
    var nextRetryAt :- ReadOptionalInstant(d, TheNextRetryAt);
    var resultCode :- ReadOptionalText(d, TheResultCode);
    var errorCode :- ReadOptionalText(d, TheErrorCode);
    if attemptNumber < 0 || maxAttempts < 1 then Err(Unreadable(TheAttemptNumber))
    else Ok(Event(eventId, eventType, eventTime, ingestionTime, jobId, correlationId, jobType, None, scheduledAt,
                  attemptNumber, retryable, maxAttempts, nextRetryAt, resultCode, errorCode, None))
  }

  /** What the projector passes to event_from_wire: the canonical payload inside the document, or else all of it. */
  function EventFromJournal(wire: Document): Result<Event> {
    if TheCanonicalPayload in wire && wire[TheCanonicalPayload].Encoded?
    then EventFromWire(wire[TheCanonicalPayload].document)
    else if TheCanonicalPayload in wire then Err(Unreadable(TheCanonicalPayload))
    else EventFromWire(wire)
  }

  // The round trip

  /** What survives the wire: everything but the scheduler reference and the poll time, and a job type that
      is never empty. */
  function Carried(e: Event): Event {
    e.(schedulerReference := None, pollTime := None, jobType := if e.jobType == "" then "GENERIC" else e.jobType)
  }

  predicate ShowsRequired(d: Document, e: Event) {
    && TheEventId in d && d[TheEventId] == Key(e.eventId)
    && TheEventType in d && d[TheEventType] == Kind(e.eventType)
    && TheEventTime in d && d[TheEventTime] == Instant(e.eventTime)
    && TheIngestionTime in d && d[TheIngestionTime] == Instant(e.ingestionTime)
    && TheJobId in d && d[TheJobId] == Key(e.jobId)
    && TheAttemptNumber in d && d[TheAttemptNumber] == Number(e.attemptNumber)
    && TheMaxAttempts in d && d[TheMaxAttempts] == Number(e.maxAttempts)
  }

  predicate ShowsOptional(d: Document, e: Event) {
    && Get(d, TheCorrelationId) == (if e.correlationId == "" then Null else Text(e.correlationId))
    && Get(d, TheJobType) == (if e.jobType == "" then Null else Text(e.jobType))
    && Get(d, TheScheduledAt) == Iso(e.scheduledAt)
    && Get(d, TheNextRetryAt) == Iso(e.nextRetryAt)
    && Get(d, TheRetryable) == (if e.retryable.None? then Null else Flag(e.retryable.value))
    && Get(d, TheResultCode) == OptionalText(e.resultCode)
    && Get(d, TheErrorCode) == OptionalText(e.errorCode)
  }

  lemma DomainShows(e: Event)
    ensures ShowsRequired(DomainDocument(e), e) && ShowsOptional(DomainDocument(e), e)
  {
  }

  /** The envelope is the hashed document with two fields more: the document itself and its digest. */
  lemma EnvelopeCarriesDigest(e: Event, hash: Document -> string)
    ensures var (wire, digest) := CanonicalEdr(e, hash);
            && digest == hash(DomainDocument(e))
            && TheCanonicalPayload in wire && wire[TheCanonicalPayload] == Encoded(DomainDocument(e))
            && ThePayloadHash in wire && wire[ThePayloadHash] == Text(digest)
            && wire - {TheCanonicalPayload, ThePayloadHash} == DomainDocument(e)
  {
  }

  lemma EnvelopeShows(d: Document, e: Event, digest: string)
    requires ShowsRequired(d, e) && ShowsOptional(d, e)
    ensures var w := d[TheCanonicalPayload := Encoded(d)][ThePayloadHash := Text(digest)];
            ShowsRequired(w, e) && ShowsOptional(w, e)
  {
  }

  lemma ReadBack(d: Document, e: Event)
    requires ShowsRequired(d, e) && ShowsOptional(d, e)
    ensures EventFromWire(d) == Ok(Carried(e))
  {
  }

  /** Decoding what was encoded gives the event back up to what the wire does not carry, whether the reader
      starts from the whole document or from the canonical payload inside it. */
  lemma RoundTrip(e: Event, hash: Document -> string)
    ensures EventFromWire(CanonicalEdr(e, hash).0) == Ok(Carried(e))
    ensures EventFromJournal(CanonicalEdr(e, hash).0) == Ok(Carried(e))
    ensures EventFromWire(DomainDocument(e)) == Ok(Carried(e))
  {
    DomainShows(e);
    ReadBack(DomainDocument(e), e);
    EnvelopeShows(DomainDocument(e), e, hash(DomainDocument(e)));
    ReadBack(CanonicalEdr(e, hash).0, e);
  }

  const OPTIONAL: set<Field> :=
    {TheCorrelationId, TheJobType, TheScheduledAt, TheAttemptNumber, TheMaxAttempts, TheRetryable, TheNextRetryAt,
     TheResultCode, TheErrorCode}

  /** Without its optional fields a document still reads, with their defaults. */
  lemma OptionalFieldsDefault(e: Event)
    ensures EventFromWire(DomainDocument(e) - OPTIONAL)
            == Ok(Event(e.eventId, e.eventType, e.eventTime, e.ingestionTime, e.jobId, "", "GENERIC", None, None, 0,
                        None, 3, None, None, None, None))
  {
  }

  predicate Required(f: Field) {
    f.TheEventId? || f.TheEventType? || f.TheEventTime? || f.TheIngestionTime? || f.TheJobId?
  }

  /** A document without a required field, with a negative attempt number, or with a maximum below one, does
      not read. */
  lemma UnreadableDocuments(d: Document, f: Field)
    ensures Required(f) && f !in d ==> EventFromWire(d).Err?
    ensures TheAttemptNumber in d && d[TheAttemptNumber].Number? && d[TheAttemptNumber].number < 0 ==>
            EventFromWire(d).Err?
    ensures TheMaxAttempts in d && d[TheMaxAttempts].Number? && d[TheMaxAttempts].number < 1 ==>
            EventFromWire(d).Err?
  {
  }

  /** The projector reads the canonical payload when there is one, and the document itself otherwise. */
  lemma PayloadPreferred(d: Document, payload: Document)
    ensures EventFromJournal(d[TheCanonicalPayload := Encoded(payload)]) == EventFromWire(payload)
    ensures TheCanonicalPayload !in d ==> EventFromJournal(d) == EventFromWire(d)
  {
  }

  /** Exactly the events the wire carries unchanged. */
  predicate WireSafe(e: Event) {
    e.jobType != "" && e.schedulerReference.None? && e.pollTime.None?
  }

  lemma CarriedUnchanged(e: Event)
    ensures Carried(e) == e <==> WireSafe(e)
  {
  }

  /** Two events have the same hashed document exactly when they decode alike and agree on whether the job
      type is empty. */
  lemma SameDocument(e: Event, f: Event, hash: Document -> string)
    ensures DomainDocument(e) == DomainDocument(f) <==>
            Carried(e) == Carried(f) && (e.jobType == "" <==> f.jobType == "")
    ensures DomainDocument(e) == DomainDocument(f) ==> CanonicalEdr(e, hash) == CanonicalEdr(f, hash)
  {
    if DomainDocument(e) == DomainDocument(f) {
      RoundTrip(e, hash);
      RoundTrip(f, hash);
      assert DomainDocument(e)[TheJobType] == TextOrNull(e.jobType);
      assert DomainDocument(f)[TheJobType] == TextOrNull(f.jobType);
    }
  }

  // Folding wire copies

  function Copies(es: seq<Event>): seq<Event> {
    seq(|es|, i requires 0 <= i < |es| => Carried(es[i]))
  }

  /** Wire copies of events that carry nothing the wire drops are the events themselves, so they fold to the
      same projection; every event the scheduler emits is one of these. */
  lemma SafeCopies(es: seq<Event>)
    requires forall e | e in es :: WireSafe(e)
    ensures Copies(es) == es
  {
    forall i | 0 <= i < |es| ensures Copies(es)[i] == es[i] {
      assert es[i] in es;
    }
  }

  predicate SameAttempt(a: Attempt, b: Attempt) {
    a.(retrievedAt := None) == b.(retrievedAt := None) && (a.retrievedAt.None? <==> b.retrievedAt.None?)
  }

  predicate SameAttempts(a: map<nat, Attempt>, b: map<nat, Attempt>) {
    a.Keys == b.Keys && forall n | n in a :: SameAttempt(a[n], b[n])
  }

  /** Equal except for when items were retrieved and for the scheduler reference. */
  predicate SameButRetrieval(j: JobVisibility, k: JobVisibility) {
    && SameAttempts(j.attempts, k.attempts)
    && j.milestones.(retrievedAt := None) == k.milestones.(retrievedAt := None)
    && j.description.(schedulerReference := None) == k.description.(schedulerReference := None)
    && j.(attempts := map[], milestones := k.milestones, description := k.description) == k.(attempts := map[])
  }

  lemma SameAttemptFor(j: JobVisibility, k: JobVisibility, e: Event)
    requires SameButRetrieval(j, k)
    ensures SameAttempt(AttemptFor(j, e), AttemptFor(k, Carried(e)))
    ensures AttemptOf(Carried(e)) == AttemptOf(e)
    ensures GapFindings(j, e) == GapFindings(k, Carried(e))
    ensures forall also :: Incomplete(j, e, also) == Incomplete(k, Carried(e), also)
  {
    var n := AttemptOf(e);
    assert MissingPredecessor(j.attempts, n) <==> MissingPredecessor(k.attempts, n);
  }

  lemma CopiedItemRetrieved(j: JobVisibility, k: JobVisibility, e: Event)
    requires SameButRetrieval(j, k) && e.eventType.ItemRetrieved?
    ensures SameButRetrieval(Handle(j, e).job, Handle(k, Carried(e)).job)
    ensures Handle(j, e).changed == Handle(k, Carried(e)).changed
  {
    SameAttemptFor(j, k, e);
  }

  lemma CopiedExecutionStarted(j: JobVisibility, k: JobVisibility, e: Event)
    requires SameButRetrieval(j, k) && e.eventType.ExecutionStarted?
    ensures SameButRetrieval(Handle(j, e).job, Handle(k, Carried(e)).job)
    ensures Handle(j, e).changed == Handle(k, Carried(e)).changed
  {
    SameAttemptFor(j, k, e);
  }

  lemma CopiedExecutionSucceeded(j: JobVisibility, k: JobVisibility, e: Event)
    requires SameButRetrieval(j, k) && e.eventType.ExecutionSucceeded?
    ensures SameButRetrieval(Handle(j, e).job, Handle(k, Carried(e)).job)
    ensures Handle(j, e).changed == Handle(k, Carried(e)).changed
  {
    SameAttemptFor(j, k, e);
  }

  lemma CopiedExecutionFailed(j: JobVisibility, k: JobVisibility, e: Event)
    requires SameButRetrieval(j, k) && e.eventType.ExecutionFailed?
    ensures SameButRetrieval(Handle(j, e).job, Handle(k, Carried(e)).job)
    ensures Handle(j, e).changed == Handle(k, Carried(e)).changed
  {
    SameAttemptFor(j, k, e);
  }

  lemma CopiedAttemptEvent(j: JobVisibility, k: JobVisibility, e: Event)
    requires SameButRetrieval(j, k) && Touches(e)
    ensures SameButRetrieval(Handle(j, e).job, Handle(k, Carried(e)).job)
    ensures Handle(j, e).changed == Handle(k, Carried(e)).changed
  {
    match e.eventType {
      case ItemRetrieved => CopiedItemRetrieved(j, k, e);
      case ExecutionStarted => CopiedExecutionStarted(j, k, e);
      case ExecutionSucceeded => CopiedExecutionSucceeded(j, k, e);
      case ExecutionFailed => CopiedExecutionFailed(j, k, e);
    }
  }

  lemma CopiedOtherEvent(j: JobVisibility, k: JobVisibility, e: Event)
    requires SameButRetrieval(j, k) && !Touches(e)
    ensures SameButRetrieval(Handle(j, e).job, Handle(k, Carried(e)).job)
    ensures Handle(j, e).changed == Handle(k, Carried(e)).changed
  {
    match e.eventType {
      case JobCreated =>
      case SubmissionRequested =>
      case SubmissionAcknowledged =>
      case SubmissionFailed =>
      case RetryRequested =>
      case RetryAcknowledged =>
      case RetryRejected =>
      case RetriesExhausted =>
      case JobCancelled =>
    }
  }

  /** The reader's default job type is invisible: the event names a type, or the aggregate already has the
      default, or the event is not projected at all. */
  predicate JobTypeSurvives(j: JobVisibility, e: Event) {
    e.jobType != "" || j.description.jobType == "GENERIC" || IsSemanticDuplicate(j, e)
  }

  lemma CopiedEvent(j: JobVisibility, k: JobVisibility, e: Event)
    requires SameButRetrieval(j, k) && JobTypeSurvives(j, e)
    ensures SameButRetrieval(Reduce(j, e), Reduce(k, Carried(e)))
  {
    SameAttemptFor(j, k, e);
    if !IsSemanticDuplicate(j, e) {
      var jd := j.(description := Describe(j.description, e));
      var kd := k.(description := Describe(k.description, Carried(e)));
      assert SameButRetrieval(jd, kd);
      if Touches(e) {
        CopiedAttemptEvent(jd, kd, e);
      } else {
        CopiedOtherEvent(jd, kd, e);
      }
    }
  }

  /** One event and its wire copy have the same effect exactly when the job type survives. */
  lemma CopyAgreesExactly(j: JobVisibility, e: Event)
    ensures SameButRetrieval(Reduce(j, e), Reduce(j, Carried(e))) <==> JobTypeSurvives(j, e)
  {
    if JobTypeSurvives(j, e) {
      CopiedEvent(j, j, e);
    } else {
      assert AttemptFor(j, e) == AttemptFor(j, Carried(e));
      HandlerKeepsDescription(j.(description := Describe(j.description, e)), e);
      HandlerKeepsDescription(j.(description := Describe(j.description, Carried(e))), Carried(e));
    }
  }

  lemma CopiesAppend(es: seq<Event>, e: Event)
    ensures Copies(es + [e]) == Copies(es) + [Carried(e)]
  {
  }

  lemma CopiedStep(id: JobId, es: seq<Event>, e: Event)
    requires e.jobType != "" && SameButRetrieval(Replay(id, es), Replay(id, Copies(es)))
    ensures SameButRetrieval(Replay(id, es + [e]), Replay(id, Copies(es + [e])))
  {
    CopiesAppend(es, e);
    CopiedEvent(Replay(id, es), Replay(id, Copies(es)), e);
    ReplayOne(id, es, e);
    ReplayOne(id, Copies(es), Carried(e));
  }

  /** For events with a non-empty job type, a projection of wire copies differs from one of the originals
      only in retrieval instants and the scheduler reference: status, attempts, retry state, findings and
      decisions are the same. */
  lemma {:induction false} CopiesFoldAlike(id: JobId, es: seq<Event>)
    requires forall e | e in es :: e.jobType != ""
    ensures SameButRetrieval(Replay(id, es), Replay(id, Copies(es)))
  {
    if es != [] {
      CopiesFoldAlike(id, es[..|es| - 1]);
      CopiedStep(id, es[..|es| - 1], es[|es| - 1]);
      assert es[..|es| - 1] + [es[|es| - 1]] == es;
    }
  }
}

/** The grammar of a job's outbox: creation, then numbered rounds, at most the last one final. */
module TraceLanguage {
  import opened Model
  import opened Scheduler
  import opened SchedulerLaws
  import opened TraceLaws

  datatype Letter = Letter(kind: EventType, attempt: nat, retryable: Option<bool>)

  /** How a round ends: not at all (still held, or recovered), or by one of the four completions. */
  datatype Close = Open | Retried | Won | LostForGood | RanOut

  datatype Round = Round(starts: nat, close: Close)

  function Letters(es: seq<Event>): seq<Letter> {
    seq(|es|, i requires 0 <= i < |es| => Letter(es[i].eventType, es[i].attemptNumber, es[i].retryable))
  }

  function Starts(n: nat, count: nat): seq<Letter> {
    if count == 0 then [] else Starts(n, count - 1) + [Letter(ExecutionStarted, n, None)]
  }

  function Closing(n: nat, close: Close): seq<Letter> {
    match close
    case Open => []
    case Retried =>
      [Letter(ExecutionFailed, n, Some(true)), Letter(RetryRequested, n, Some(true)),
       Letter(RetryAcknowledged, n, Some(true))]
    case Won => [Letter(ExecutionSucceeded, n, None)]
    case LostForGood => [Letter(ExecutionFailed, n, Some(false))]
    case RanOut => [Letter(ExecutionFailed, n, Some(true)), Letter(RetriesExhausted, n, Some(false))]
  }

  function RoundWord(n: nat, r: Round): seq<Letter> {
    [Letter(ItemRetrieved, n, None)] + Starts(n, r.starts) + Closing(n, r.close)
  }

  function Word(rounds: seq<Round>): seq<Letter> {
    if rounds == [] then [Letter(JobCreated, 0, None), Letter(SubmissionRequested, 0, None)]
    else Word(rounds[..|rounds| - 1]) + RoundWord(|rounds|, rounds[|rounds| - 1])
  }

  /** The completion recorded for an attempt of a row in the given status. */
  predicate CloseMatches(a: AttemptRow, newest: bool, row: RowStatus, close: Close) {
    match close
    case Open => a.outcome.None?
    case Retried => RetriedFailure(a) && (newest ==> row.RowRetryWait?)
    case Won => newest && row.RowSucceeded? && a.outcome == Some(OutcomeSucceeded)
    case LostForGood => newest && row.RowFailed? && a.outcome == Some(OutcomeFailed)
    case RanOut => newest && row.RowExhausted? && RetriedFailure(a)
  }

  /** `rounds` spell the job's outbox, one round per attempt, ended as its attempt row says. */
  ghost predicate SpelledBy(s: JobState, rounds: seq<Round>) {
    && |rounds| == s.row.attemptNumber
    && Letters(s.trace) == Word(rounds)
    && forall i | 0 <= i < |rounds| ::
         && i + 1 in s.attempts
         && (rounds[i].starts > 0 <==> s.attempts[i + 1].startedAt.Some?)
         && CloseMatches(s.attempts[i + 1], i + 1 == s.row.attemptNumber, s.row.status, rounds[i].close)
  }

  lemma LettersAppend(es: seq<Event>, fs: seq<Event>)
    ensures Letters(es + fs) == Letters(es) + Letters(fs)
  {
  }

  /** Letters added to the open last round, or forming a new one, extend the word at its end. */
  lemma {:induction false} WordSetLast(rounds: seq<Round>, r: Round, extra: seq<Letter>)
    requires rounds != []
    requires RoundWord(|rounds|, r) == RoundWord(|rounds|, rounds[|rounds| - 1]) + extra
    ensures Word(rounds[..|rounds| - 1] + [r]) == Word(rounds) + extra
  {
    var next := rounds[..|rounds| - 1] + [r];
    assert next[..|next| - 1] == rounds[..|rounds| - 1];
  }

  lemma {:induction false} WordAddRound(rounds: seq<Round>)
    ensures Word(rounds + [Round(0, Open)]) == Word(rounds) + [Letter(ItemRetrieved, |rounds| + 1, None)]
  {
    assert (rounds + [Round(0, Open)])[..|rounds|] == rounds;
  }

  function CloseOf(c: ClaimedJob, failure: HandlerFailure): Close {
    if WillRetry(c, failure) then Retried else if failure.retryable then RanOut else LostForGood
  }

  /** The rounds after a transaction that took effect. */
  function NextRounds(rounds: seq<Round>, a: JobAction): seq<Round>
    requires a.Start? || a.Succeed? || a.Fail? ==> rounds != []
  {
    match a
    case Claim(_) => rounds + [Round(0, Open)]
    case Start(_) => var r := rounds[|rounds| - 1]; rounds[..|rounds| - 1] + [Round(r.starts + 1, Open)]
    case Succeed(_) => var r := rounds[|rounds| - 1]; rounds[..|rounds| - 1] + [Round(r.starts, Won)]
    case Fail(c, failure, _) =>
      var r := rounds[|rounds| - 1]; rounds[..|rounds| - 1] + [Round(r.starts, CloseOf(c, failure))]
    case _ => rounds
  }

  /** The letters a transaction that took effect adds, when the job's newest attempt is `n`. */
  function NewLetters(n: nat, a: JobAction): seq<Letter> {
    match a
    case Claim(_) => [Letter(ItemRetrieved, n + 1, None)]
    case Start(_) => [Letter(ExecutionStarted, n, None)]
    case Succeed(_) => Closing(n, Won)
    case Fail(c, failure, _) => Closing(n, CloseOf(c, failure))
    case _ => []
  }

  lemma NewLettersOf(now: Time, lease: nat, nextId: nat, id: JobId, s: JobState, a: JobAction)
    requires Transaction(now, lease, nextId, id, s, a).Some?
    ensures Letters(Transaction(now, lease, nextId, id, s, a).value.events) == NewLetters(s.row.attemptNumber, a)
  {
    match a {
      case Claim(_) =>
      case Start(c) =>
      case Succeed(c) =>
      case Fail(c, failure, _) =>
      case Heartbeat(_) =>
      case Recover =>
    }
  }

  lemma {:induction false} NextWord(a: JobAction, rounds: seq<Round>)
    requires a.Start? || a.Succeed? || a.Fail? ==> rounds != [] && rounds[|rounds| - 1].close.Open?
    ensures Word(NextRounds(rounds, a)) == Word(rounds) + NewLetters(|rounds|, a)
  {
    match a {
      case Claim(_) => WordAddRound(rounds);
      case Start(_) =>
        WordSetLast(rounds, Round(rounds[|rounds| - 1].starts + 1, Open), NewLetters(|rounds|, a));
      case Succeed(_) => WordSetLast(rounds, Round(rounds[|rounds| - 1].starts, Won), NewLetters(|rounds|, a));
      case Fail(c, failure, _) =>
        WordSetLast(rounds, Round(rounds[|rounds| - 1].starts, CloseOf(c, failure)), NewLetters(|rounds|, a));
      case _ =>
    }
  }

  lemma HeldRoundIsOpen(now: Time, s: JobState, c: ClaimedJob, rounds: seq<Round>)
    requires JobInv(now, s) && SpelledBy(s, rounds) && Passes(now, s.row, c)
    ensures rounds != [] && rounds[|rounds| - 1].close.Open?
  {
    PassingClaim(now, c.jobId, s, c);
  }

  /** Every transaction keeps the outbox in the grammar. */
  lemma StepSpelled(now: Time, lease: nat, nextId: nat, id: JobId, s: JobState, a: JobAction, rounds: seq<Round>)
    requires JobInv(now, s) && SpelledBy(s, rounds) && Permitted(now, id, s, a)
    ensures exists next :: SpelledBy(JobStep(now, lease, nextId, id, s, a), next)
  {
    var t := JobStep(now, lease, nextId, id, s, a);
    var change := Transaction(now, lease, nextId, id, s, a);
    if change.None? {
      assert SpelledBy(t, rounds);
    } else {
      if a.Start? || a.Succeed? || a.Fail? {
        HeldRoundIsOpen(now, s, a.claim, rounds);
      }
      NewLettersOf(now, lease, nextId, id, s, a);
      NextWord(a, rounds);
      LettersAppend(s.trace, change.value.events);
      RoundsMatch(now, lease, nextId, id, s, a, rounds);
      assert SpelledBy(t, NextRounds(rounds, a));
    }
  }

  lemma RoundsMatch(now: Time, lease: nat, nextId: nat, id: JobId, s: JobState, a: JobAction, rounds: seq<Round>)
    requires JobInv(now, s) && SpelledBy(s, rounds) && Permitted(now, id, s, a)
    requires Transaction(now, lease, nextId, id, s, a).Some?
    requires a.Start? || a.Succeed? || a.Fail? ==> rounds != [] && rounds[|rounds| - 1].close.Open?
    ensures var t, next := JobStep(now, lease, nextId, id, s, a), NextRounds(rounds, a);
            && |next| == t.row.attemptNumber
            && forall i | 0 <= i < |next| ::
                 && i + 1 in t.attempts
                 && (next[i].starts > 0 <==> t.attempts[i + 1].startedAt.Some?)
                 && CloseMatches(t.attempts[i + 1], i + 1 == t.row.attemptNumber, t.row.status, next[i].close)
  {
    match a {
      case Claim(_) =>
      case Start(c) =>
      case Heartbeat(c) =>
      case Succeed(c) =>
      case Fail(c, failure, asked) =>
      case Recover =>
    }
  }

  lemma SubmittedSpelled(now: Time, nextId: nat, value: JobSubmission)
    ensures SpelledBy(Submitted(now, nextId, value), [])
  {
  }

  /** Every round but the last was left open or retried. */
  predicate OnlyLastFinal(rounds: seq<Round>) {
    forall i | 0 <= i < |rounds| - 1 :: rounds[i].close.Open? || rounds[i].close.Retried?
  }

  lemma OnlyLastRoundFinal(s: JobState, rounds: seq<Round>)
    requires SpelledBy(s, rounds)
    ensures OnlyLastFinal(rounds)
  {
  }
}

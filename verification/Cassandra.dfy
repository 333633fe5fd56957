/** The reserve / finalise / mark protocol of scheduler/cassandra_client.py on one record.

Each statement the driver executes is one atomic step of the call that issues it; calls interleave freely.
A lost response is an executed or unexecuted statement whose answer never arrives; a crash is a call that is
never scheduled again.
*/
module Cassandra {
  import opened Model

  type Operation = nat

  datatype Row = Row(checksum: int, pending: Option<Operation>, last: Option<Operation>)

  /** One increment: the operation that made it and the checksum it started from. */
  datatype Final = Final(op: Operation, from: int)

  /** The record, the operation markers, and the history of increments. */
  datatype Shared = Shared(start: int, row: Row, markers: map<Operation, int>, finals: seq<Final>)

  /** Where a call of `apply_once` stands. */
  datatype Stage =
    | AtRead
    | AtFind(seen: Row)
    | AtReserve(before: Row)
    | AtFinish
    | AtReread
    | AtMark(checksum: int)
    | Returned(applied: bool, value: int)
    | Raised

  datatype Call = Call(op: Operation, observed: int, stage: Stage)

  /** What happens to one statement: answered, lost before it executed, or lost after. */
  datatype Fault = Answered | LostBefore | LostAfter

  predicate CanReserve(row: Row, observed: int) {
    row.checksum == observed && row.pending.None?
  }

  predicate CanFinish(row: Row, op: Operation, observed: int) {
    row.pending == Some(op) && row.checksum == observed
  }

  function Reserve(sh: Shared, c: Call): Shared {
    if CanReserve(sh.row, c.observed) then sh.(row := sh.row.(pending := Some(c.op))) else sh
  }

  function Finish(sh: Shared, c: Call): Shared {
    if CanFinish(sh.row, c.op, c.observed)
    then sh.(row := Row(c.observed + 1, None, Some(c.op)), finals := sh.finals + [Final(c.op, c.observed)])
    else sh
  }

  function Mark(sh: Shared, c: Call, checksum: int): Shared {
    sh.(markers := sh.markers[c.op := checksum])
  }

  datatype Outcome = Outcome(shared: Shared, call: Call)

  function At(sh: Shared, c: Call, stage: Stage): Outcome {
    Outcome(sh, c.(stage := stage))
  }

  /** One statement of one call. */
  function CallStep(sh: Shared, c: Call, fault: Fault): Outcome {
    match c.stage
    case AtRead =>
      if !fault.Answered? then At(sh, c, Raised)
      else if sh.row.last == Some(c.op) then At(sh, c, AtMark(sh.row.checksum))
      else At(sh, c, AtFind(sh.row))
    case AtFind(seen) =>
      if !fault.Answered? then At(sh, c, Raised)
      else if c.op in sh.markers && sh.markers[c.op] == seen.checksum then At(sh, c, Returned(true, seen.checksum))
      else if seen.pending != Some(c.op) then At(sh, c, AtReserve(seen))
      else At(sh, c, AtFinish)
    case AtReserve(seen) =>
      if fault.LostBefore? then At(sh, c, Raised)
      else if fault.LostAfter? then At(Reserve(sh, c), c, Raised)
      else if CanReserve(sh.row, c.observed) then At(Reserve(sh, c), c, AtFinish)
      else At(sh, c, Returned(false, seen.checksum))
    case AtFinish =>
      if fault.LostBefore? then At(sh, c, AtReread)
      else if fault.LostAfter? then At(Finish(sh, c), c, AtReread)
      else if CanFinish(sh.row, c.op, c.observed) then At(Finish(sh, c), c, AtMark(c.observed + 1))
      else At(sh, c, Returned(false, c.observed))
    case AtReread =>
      if !fault.Answered? || sh.row.last != Some(c.op) then At(sh, c, Raised)
      else At(sh, c, AtMark(sh.row.checksum))
    case AtMark(checksum) =>
      if fault.LostBefore? then At(sh, c, Raised)
      else if fault.LostAfter? then At(Mark(sh, c, checksum), c, Raised)
      else At(Mark(sh, c, checksum), c, Returned(true, checksum))
    case Returned(_, _) => At(sh, c, c.stage)
    case Raised => At(sh, c, c.stage)
  }

  // Any number of interleaved calls

  datatype System = System(shared: Shared, calls: seq<Call>)

  datatype Event =
    | Begin(op: Operation, observed: int)
    | Move(i: nat, fault: Fault)

  /** A caller passes a checksum it read from this record. */
  predicate Allowed(s: System, e: Event) {
    e.Begin? ==> s.shared.start <= e.observed <= s.shared.row.checksum
  }

  function Step(s: System, e: Event): System {
    match e
    case Begin(op, observed) => s.(calls := s.calls + [Call(op, observed, AtRead)])
    case Move(i, fault) =>
      if i >= |s.calls| then s
      else
        var next := CallStep(s.shared, s.calls[i], fault);
        System(next.shared, s.calls[i := next.call])
  }

  /** A freshly seeded record: nothing pending, nothing applied. */
  function Seeded(start: int): System {
    System(Shared(start, Row(start, None, None), map[], []), [])
  }

  function Run(s: System, events: seq<Event>): System {
    Fold(Step, s, events)
  }

  predicate ValidRun(s: System, events: seq<Event>) {
    events == [] ||
    (ValidRun(s, events[..|events| - 1]) && Allowed(Run(s, events[..|events| - 1]), events[|events| - 1]))
  }

  // The invariant

  /** `op` made the increment that produced `checksum`. */
  predicate Produced(sh: Shared, op: Operation, checksum: int) {
    0 <= checksum - 1 - sh.start < |sh.finals| && sh.finals[checksum - 1 - sh.start] == Final(op, checksum - 1)
  }

  ghost predicate SharedInv(sh: Shared) {
    && sh.row.checksum == sh.start + |sh.finals|
    && (forall i | 0 <= i < |sh.finals| :: sh.finals[i].from == sh.start + i)
    && (forall i | 0 < i < |sh.finals| :: sh.finals[i - 1].op != sh.finals[i].op)
    && sh.row.last == (if sh.finals == [] then None else Some(sh.finals[|sh.finals| - 1].op))
    && (forall op | op in sh.markers :: Produced(sh, op, sh.markers[op]))
  }

  /** The call may still finalise only if its operation did not produce the checksum it starts from. */
  predicate NotYet(sh: Shared, c: Call) {
    && c.observed <= sh.row.checksum
    && (c.observed == sh.row.checksum ==> !Produced(sh, c.op, c.observed))
  }

  predicate CallInv(sh: Shared, c: Call) {
    match c.stage
    case AtRead => c.observed <= sh.row.checksum
    case AtFind(seen) =>
      && NotYet(sh, c) && sh.start <= seen.checksum <= sh.row.checksum && !Produced(sh, c.op, seen.checksum)
    case AtReserve(_) => NotYet(sh, c)
    case AtFinish => NotYet(sh, c)
    case AtMark(checksum) => Produced(sh, c.op, checksum)
    case Returned(applied, value) => applied ==> Produced(sh, c.op, value)
    case _ => true
  }

  ghost predicate Inv(s: System) {
    SharedInv(s.shared) && forall i | 0 <= i < |s.calls| :: CallInv(s.shared, s.calls[i])
  }

  /** What every statement of every call keeps of the increments already made. */
  predicate Extends(sh: Shared, next: Shared) {
    && next.start == sh.start
    && sh.finals <= next.finals && |next.finals| <= |sh.finals| + 1
    && sh.row.checksum <= next.row.checksum
  }

  lemma ReserveInv(sh: Shared, c: Call)
    requires SharedInv(sh)
    ensures SharedInv(Reserve(sh, c)) && Extends(sh, Reserve(sh, c))
    ensures NotYet(sh, c) ==> NotYet(Reserve(sh, c), c)
  {
  }

  lemma MarkInv(sh: Shared, c: Call, checksum: int)
    requires SharedInv(sh) && Produced(sh, c.op, checksum)
    ensures SharedInv(Mark(sh, c, checksum)) && Extends(sh, Mark(sh, c, checksum))
    ensures Produced(Mark(sh, c, checksum), c.op, checksum)
  {
    var next := Mark(sh, c, checksum);
    forall op | op in next.markers ensures Produced(next, op, next.markers[op]) {
      assert op != c.op ==> Produced(sh, op, sh.markers[op]);
    }
  }

  lemma ProducedKept(sh: Shared, next: Shared, op: Operation, checksum: int)
    requires next.start == sh.start && sh.finals <= next.finals
    ensures Produced(sh, op, checksum) ==> Produced(next, op, checksum)
  {
  }

  lemma FinishInv(sh: Shared, c: Call)
    requires SharedInv(sh) && NotYet(sh, c)
    ensures SharedInv(Finish(sh, c)) && Extends(sh, Finish(sh, c))
    ensures CanFinish(sh.row, c.op, c.observed) ==> Produced(Finish(sh, c), c.op, c.observed + 1)
  {
    var next := Finish(sh, c);
    forall op | op in next.markers ensures Produced(next, op, next.markers[op]) {
      ProducedKept(sh, next, op, sh.markers[op]);
    }
  }

  lemma LastProduced(sh: Shared, op: Operation)
    requires SharedInv(sh)
    ensures sh.row.last == Some(op) <==> Produced(sh, op, sh.row.checksum)
  {
  }

  predicate StepKeeps(sh: Shared, next: Outcome) {
    CallInv(next.shared, next.call) && Extends(sh, next.shared)
  }

  lemma ReadingStep(sh: Shared, c: Call, fault: Fault)
    requires SharedInv(sh) && CallInv(sh, c) && (c.stage.AtRead? || c.stage.AtFind? || c.stage.AtReread?)
    ensures CallStep(sh, c, fault).shared == sh && StepKeeps(sh, CallStep(sh, c, fault))
  {
    LastProduced(sh, c.op);
    if c.stage.AtFind? && c.op in sh.markers {
      assert Produced(sh, c.op, sh.markers[c.op]);
    }
  }

  lemma FinishStep(sh: Shared, c: Call, fault: Fault)
    requires SharedInv(sh) && CallInv(sh, c) && c.stage.AtFinish?
    ensures SharedInv(CallStep(sh, c, fault).shared) && StepKeeps(sh, CallStep(sh, c, fault))
  {
    FinishInv(sh, c);
  }

  lemma WritingStep(sh: Shared, c: Call, fault: Fault)
    requires SharedInv(sh) && CallInv(sh, c) && (c.stage.AtReserve? || c.stage.AtMark?)
    ensures SharedInv(CallStep(sh, c, fault).shared) && StepKeeps(sh, CallStep(sh, c, fault))
  {
    if c.stage.AtReserve? {
      ReserveInv(sh, c);
    } else {
      MarkInv(sh, c, c.stage.checksum);
    }
  }

  /** One statement keeps the invariant, answered or lost. */
  lemma CallStepInv(sh: Shared, c: Call, fault: Fault)
    requires SharedInv(sh) && CallInv(sh, c)
    ensures SharedInv(CallStep(sh, c, fault).shared) && StepKeeps(sh, CallStep(sh, c, fault))
  {
    match c.stage {
      case AtFinish => FinishStep(sh, c, fault);
      case AtReserve(_) => WritingStep(sh, c, fault);
      case AtMark(_) => WritingStep(sh, c, fault);
      case Returned(_, _) =>
      case Raised =>
      case _ => ReadingStep(sh, c, fault);
    }
  }

  lemma OtherCallKept(sh: Shared, next: Shared, c: Call)
    requires SharedInv(sh) && SharedInv(next) && Extends(sh, next) && CallInv(sh, c)
    ensures CallInv(next, c)
  {
  }

  lemma StepInv(s: System, e: Event)
    requires Inv(s) && Allowed(s, e)
    ensures Inv(Step(s, e))
    ensures s.shared.finals <= Step(s, e).shared.finals
  {
    if e.Move? && e.i < |s.calls| {
      CallStepInv(s.shared, s.calls[e.i], e.fault);
      var next := Step(s, e);
      forall k | 0 <= k < |next.calls| ensures CallInv(next.shared, next.calls[k]) {
        if k != e.i {
          OtherCallKept(s.shared, next.shared, s.calls[k]);
        }
      }
    }
  }

  lemma {:induction false} RunInv(s: System, events: seq<Event>)
    requires Inv(s) && ValidRun(s, events)
    ensures Inv(Run(s, events))
  {
    if events != [] {
      RunInv(s, events[..|events| - 1]);
      StepInv(Run(s, events[..|events| - 1]), events[|events| - 1]);
    }
  }

  // Theorems over every interleaving

  /** The checksum counts the increments; each checksum value is left at most once; a True result was earned
      by an increment of that very operation producing the returned checksum. */
  lemma {:induction false} IncrementsAreCounted(start: int, events: seq<Event>, i: nat, k: nat, call: nat)
    requires ValidRun(Seeded(start), events)
    ensures var s := Run(Seeded(start), events);
            && s.shared.row.checksum == s.shared.start + |s.shared.finals|
            && (i < k < |s.shared.finals| ==> s.shared.finals[i].from < s.shared.finals[k].from)
            && (call < |s.calls| && s.calls[call].stage.Returned? && s.calls[call].stage.applied ==>
                  Final(s.calls[call].op, s.calls[call].stage.value - 1) in s.shared.finals)
  {
    RunInv(Seeded(start), events);
  }

  /** However many calls replay one operation with one observed checksum, they increment at most once. */
  lemma {:induction false} SameObservationOnce(start: int, events: seq<Event>, i: nat, k: nat)
    requires ValidRun(Seeded(start), events)
    requires i < |Run(Seeded(start), events).shared.finals| && k < |Run(Seeded(start), events).shared.finals|
    requires Run(Seeded(start), events).shared.finals[i] == Run(Seeded(start), events).shared.finals[k]
    ensures i == k
  {
    RunInv(Seeded(start), events);
  }

  /** An operation increments again only after some other operation has incremented in between. */
  lemma {:induction false} SecondEffectNeedsAnother(start: int, events: seq<Event>, i: nat, k: nat)
    requires ValidRun(Seeded(start), events)
    requires i < k < |Run(Seeded(start), events).shared.finals|
    requires Run(Seeded(start), events).shared.finals[i].op == Run(Seeded(start), events).shared.finals[k].op
    ensures i + 1 < k
    ensures Run(Seeded(start), events).shared.finals[i + 1].op != Run(Seeded(start), events).shared.finals[i].op
  {
    RunInv(Seeded(start), events);
  }

  /** The marker lookup never decides anything: whenever a call reaches it, the marker of its operation
      differs from the checksum it read, in every interleaving. */
  lemma {:induction false} MarkerLookupNeverMatches(start: int, events: seq<Event>, i: nat)
    requires ValidRun(Seeded(start), events)
    ensures var s := Run(Seeded(start), events);
            i < |s.calls| && s.calls[i].stage.AtFind? && s.calls[i].op in s.shared.markers ==>
              s.shared.markers[s.calls[i].op] != s.calls[i].stage.seen.checksum
  {
    RunInv(Seeded(start), events);
  }

  // One uninterrupted call

  /** What happens to the statements of one call, by stage. */
  datatype Faults = Faults(read: Fault, find: Fault, reserve: Fault, finish: Fault, reread: Fault, mark: Fault)

  const NO_FAULTS: Faults := Faults(Answered, Answered, Answered, Answered, Answered, Answered)

  function FaultAt(f: Faults, stage: Stage): Fault {
    match stage
    case AtRead => f.read
    case AtFind(_) => f.find
    case AtReserve(_) => f.reserve
    case AtFinish => f.finish
    case AtReread => f.reread
    case AtMark(_) => f.mark
    case _ => Answered
  }

  /** Statements a call may still execute. */
  function Remaining(stage: Stage): nat {
    match stage
    case AtRead => 6
    case AtFind(_) => 5
    case AtReserve(_) => 4
    case AtFinish => 3
    case AtReread => 2
    case AtMark(_) => 1
    case _ => 0
  }

  /** A call run to its end with nothing in between. */
  function Complete(sh: Shared, c: Call, f: Faults): Outcome
    decreases Remaining(c.stage)
  {
    if Remaining(c.stage) == 0 then Outcome(sh, c)
    else
      var next := CallStep(sh, c, FaultAt(f, c.stage));
      Complete(next.shared, next.call, f)
  }

  /** What an uninterrupted call leaves: the increments, the row, and the answer. */
  ghost predicate Leaves(done: Outcome, finals: seq<Final>, row: Row, applied: bool) {
    && done.shared.finals == finals && done.shared.row == row
    && done.call.stage.Returned? && done.call.stage.applied == applied
  }

  lemma {:induction false} CompleteMark(sh: Shared, c: Call)
    requires c.stage.AtMark?
    ensures Leaves(Complete(sh, c, NO_FAULTS), sh.finals, sh.row, true)
  {
  }

  lemma {:induction false} CompleteFinish(sh: Shared, c: Call)
    requires c.stage.AtFinish?
    ensures if CanFinish(sh.row, c.op, c.observed)
            then Leaves(Complete(sh, c, NO_FAULTS), sh.finals + [Final(c.op, c.observed)],
                        Row(c.observed + 1, None, Some(c.op)), true)
            else Leaves(Complete(sh, c, NO_FAULTS), sh.finals, sh.row, false)
  {
    var next := CallStep(sh, c, Answered);
    if next.call.stage.AtMark? {
      CompleteMark(next.shared, next.call);
    }
  }

  lemma {:induction false} CompleteReserve(sh: Shared, c: Call)
    requires c.stage.AtReserve?
    ensures if CanReserve(sh.row, c.observed)
            then Leaves(Complete(sh, c, NO_FAULTS), sh.finals + [Final(c.op, c.observed)],
                        Row(c.observed + 1, None, Some(c.op)), true)
            else Leaves(Complete(sh, c, NO_FAULTS), sh.finals, sh.row, false)
  {
    var next := CallStep(sh, c, Answered);
    if next.call.stage.AtFinish? {
      CompleteFinish(next.shared, next.call);
    }
  }

  /** The record, as this call finds it, lets the call increment. */
  predicate WillIncrement(row: Row, op: Operation, observed: int) {
    row.last != Some(op) && observed == row.checksum && (row.pending.None? || row.pending == Some(op))
  }

  /** Exactly when an uninterrupted, fault-free call increments: its operation was not the last one applied,
      the record still has the observed checksum, and nobody else's reservation is pending. */
  lemma {:induction false} CallIncrements(sh: Shared, op: Operation, observed: int)
    requires SharedInv(sh)
    ensures var done := Complete(sh, Call(op, observed, AtRead), NO_FAULTS);
            if WillIncrement(sh.row, op, observed)
            then Leaves(done, sh.finals + [Final(op, observed)], Row(observed + 1, None, Some(op)), true)
            else Leaves(done, sh.finals, sh.row, sh.row.last == Some(op))
  {
    var first := CallStep(sh, Call(op, observed, AtRead), Answered);
    LastProduced(sh, op);
    if first.call.stage.AtMark? {
      CompleteMark(sh, first.call);
    } else {
      assert op in sh.markers ==> Produced(sh, op, sh.markers[op]);
      var second := CallStep(sh, first.call, Answered);
      if second.call.stage.AtReserve? {
        CompleteReserve(sh, second.call);
      } else {
        CompleteFinish(sh, second.call);
      }
    }
  }

  /** The record after a complete call. */
  function After(sh: Shared, op: Operation, observed: int): Shared {
    Complete(sh, Call(op, observed, AtRead), NO_FAULTS).shared
  }

  lemma CallLeavesInv(sh: Shared, op: Operation, observed: int)
    requires SharedInv(sh) && observed <= sh.row.checksum
    ensures SharedInv(After(sh, op, observed))
  {
    CompleteInv(sh, Call(op, observed, AtRead), NO_FAULTS);
  }

  /** Once-only is per observed checksum, not per operation: with another operation's increment in between, a
      replay that has re-read the record increments again. */
  lemma OperationCanIncrementTwice()
    ensures After(After(After(Seeded(0).shared, 1, 0), 2, 1), 1, 2).finals == [Final(1, 0), Final(2, 1), Final(1, 2)]
  {
    var s0 := Seeded(0).shared;
    CallIncrements(s0, 1, 0);
    CallLeavesInv(s0, 1, 0);
    var s1 := After(s0, 1, 0);
    CallIncrements(s1, 2, 1);
    CallLeavesInv(s1, 2, 1);
    CallIncrements(After(s1, 2, 1), 1, 2);
  }

  lemma {:induction false} CompleteInv(sh: Shared, c: Call, f: Faults)
    requires SharedInv(sh) && CallInv(sh, c)
    ensures SharedInv(Complete(sh, c, f).shared) && CallInv(Complete(sh, c, f).shared, Complete(sh, c, f).call)
    decreases Remaining(c.stage)
  {
    if Remaining(c.stage) > 0 {
      var next := CallStep(sh, c, FaultAt(f, c.stage));
      CallStepInv(sh, c, FaultAt(f, c.stage));
      CompleteInv(next.shared, next.call, f);
    }
  }

  function NextStep(o: Outcome, f: Faults): Outcome {
    CallStep(o.shared, o.call, FaultAt(f, o.call.stage))
  }

  /** Running a call to its end may begin with its next statement. */
  lemma {:induction false} CompleteUnrolled(o: Outcome, f: Faults)
    ensures Complete(o.shared, o.call, f) == Complete(NextStep(o, f).shared, NextStep(o, f).call, f)
  {
    if Remaining(o.call.stage) == 0 {
      assert NextStep(o, f) == o;
    }
  }

  // What a call answers, whatever is lost

  /** How an uninterrupted call ends: the row, the increments, the markers and the answer it leaves. */
  ghost predicate Ends(done: Outcome, row: Row, finals: seq<Final>, markers: map<Operation, int>, answer: Stage) {
    && done.shared.row == row && done.shared.finals == finals && done.shared.markers == markers
    && done.call.stage == answer
  }

  /** Ends by marking the operation at a checksum, as far as the marker's statement lets it. */
  ghost predicate EndsMarking(done: Outcome, row: Row, finals: seq<Final>, markers: map<Operation, int>, op: Operation,
                              checksum: int, mark: Fault)
  {
    match mark
    case Answered => Ends(done, row, finals, markers[op := checksum], Returned(true, checksum))
    case LostBefore => Ends(done, row, finals, markers, Raised)
    case LostAfter => Ends(done, row, finals, markers[op := checksum], Raised)
  }

  lemma {:induction false} MarkEnds(sh: Shared, c: Call, f: Faults)
    requires c.stage.AtMark?
    ensures EndsMarking(Complete(sh, c, f), sh.row, sh.finals, sh.markers, c.op, c.stage.checksum, f.mark)
  {
    CompleteUnrolled(Outcome(sh, c), f);
  }

  /** A lost answer to the finalisation is reconciled by rereading: the call goes on as if answered when the
      operation is the last applied one, and raises otherwise. */
  lemma {:induction false} RereadEnds(sh: Shared, c: Call, f: Faults)
    requires c.stage.AtReread?
    ensures if f.reread.Answered? && sh.row.last == Some(c.op)
            then EndsMarking(Complete(sh, c, f), sh.row, sh.finals, sh.markers, c.op, sh.row.checksum, f.mark)
            else Ends(Complete(sh, c, f), sh.row, sh.finals, sh.markers, Raised)
  {
    var next := CallStep(sh, c, f.reread);
    CompleteUnrolled(Outcome(sh, c), f);
    if next.call.stage.AtMark? {
      MarkEnds(next.shared, next.call, f);
    }
  }

  /** A call that holds the reservation of the record at the observed checksum, from its finalisation on. */
  lemma {:induction false} HeldFinishEnds(sh: Shared, c: Call, f: Faults)
    requires c.stage.AtFinish? && sh.row == Row(c.observed, Some(c.op), sh.row.last) && sh.row.last != Some(c.op)
    ensures var done, finals := Complete(sh, c, f), sh.finals + [Final(c.op, c.observed)];
            var applied := Row(c.observed + 1, None, Some(c.op));
            if f.finish.LostBefore? then Ends(done, sh.row, sh.finals, sh.markers, Raised)
            else if f.finish.Answered? || f.reread.Answered?
            then EndsMarking(done, applied, finals, sh.markers, c.op, c.observed + 1, f.mark)
            else Ends(done, applied, finals, sh.markers, Raised)
  {
    var next := CallStep(sh, c, f.finish);
    CompleteUnrolled(Outcome(sh, c), f);
    if next.call.stage.AtMark? {
      MarkEnds(next.shared, next.call, f);
    } else {
      RereadEnds(next.shared, next.call, f);
    }
  }

  /** A call that holds the reservation of a record whose checksum has moved on. */
  lemma {:induction false} StaleFinishEnds(sh: Shared, c: Call, f: Faults)
    requires c.stage.AtFinish? && sh.row.checksum != c.observed && sh.row.last != Some(c.op)
    ensures Ends(Complete(sh, c, f), sh.row, sh.finals, sh.markers,
                 if f.finish.Answered? then Returned(false, c.observed) else Raised)
  {
    var next := CallStep(sh, c, f.finish);
    CompleteUnrolled(Outcome(sh, c), f);
    if next.call.stage.AtReread? {
      RereadEnds(next.shared, next.call, f);
    }
  }

  /** How the call ends when the record lets it increment: whatever it may have reserved before. */
  ghost predicate IncrementEnds(sh: Shared, op: Operation, observed: int, f: Faults, done: Outcome) {
    var reserved := sh.row.(pending := Some(op));
    var applied, finals := Row(observed + 1, None, Some(op)), sh.finals + [Final(op, observed)];
    if sh.row.pending.None? && f.reserve.LostBefore? then Ends(done, sh.row, sh.finals, sh.markers, Raised)
    else if sh.row.pending.None? && f.reserve.LostAfter? then Ends(done, reserved, sh.finals, sh.markers, Raised)
    else if f.finish.LostBefore? then Ends(done, reserved, sh.finals, sh.markers, Raised)
    else if f.finish.Answered? || f.reread.Answered?
    then EndsMarking(done, applied, finals, sh.markers, op, observed + 1, f.mark)
    else Ends(done, applied, finals, sh.markers, Raised)
  }

  lemma {:induction false} IncrementingCallEnds(sh: Shared, op: Operation, observed: int, f: Faults)
    requires SharedInv(sh) && WillIncrement(sh.row, op, observed) && f.read.Answered? && f.find.Answered?
    ensures IncrementEnds(sh, op, observed, f, Complete(sh, Call(op, observed, AtRead), f))
  {
    var third := ToThird(sh, op, observed, f);
    if sh.row.pending == Some(op) {
      HeldFinishEnds(sh, third, f);
    } else {
      var next := CallStep(sh, third, f.reserve);
      CompleteUnrolled(Outcome(sh, third), f);
      if next.call.stage.AtFinish? {
        HeldFinishEnds(next.shared, next.call, f);
      }
    }
  }

  /** The call after its read and its lookup, which never decides. */
  lemma {:induction false} ToThird(sh: Shared, op: Operation, observed: int, f: Faults) returns (third: Call)
    requires SharedInv(sh) && sh.row.last != Some(op) && f.read.Answered? && f.find.Answered?
    ensures third == Call(op, observed, if sh.row.pending == Some(op) then AtFinish else AtReserve(sh.row))
    ensures Complete(sh, Call(op, observed, AtRead), f) == Complete(sh, third, f)
  {
    LastProduced(sh, op);
    assert op in sh.markers ==> Produced(sh, op, sh.markers[op]);
    CompleteUnrolled(Outcome(sh, Call(op, observed, AtRead)), f);
    CompleteUnrolled(Outcome(sh, Call(op, observed, AtFind(sh.row))), f);
    third := Call(op, observed, if sh.row.pending == Some(op) then AtFinish else AtReserve(sh.row));
  }

  /** How the call ends when the record does not let it increment: it leaves the row alone, marks an operation
      already applied, and otherwise answers False or raises. */
  ghost predicate RefusalEnds(sh: Shared, op: Operation, observed: int, f: Faults, done: Outcome) {
    if !f.read.Answered? then Ends(done, sh.row, sh.finals, sh.markers, Raised)
    else if sh.row.last == Some(op)
    then EndsMarking(done, sh.row, sh.finals, sh.markers, op, sh.row.checksum, f.mark)
    else if !f.find.Answered? then Ends(done, sh.row, sh.finals, sh.markers, Raised)
    else if sh.row.pending == Some(op)
    then Ends(done, sh.row, sh.finals, sh.markers, if f.finish.Answered? then Returned(false, observed) else Raised)
    else Ends(done, sh.row, sh.finals, sh.markers,
              if f.reserve.Answered? then Returned(false, sh.row.checksum) else Raised)
  }

  lemma {:induction false} RefusedCallEnds(sh: Shared, op: Operation, observed: int, f: Faults)
    requires SharedInv(sh)
    requires !WillIncrement(sh.row, op, observed) || !f.read.Answered? || !f.find.Answered?
    ensures RefusalEnds(sh, op, observed, f, Complete(sh, Call(op, observed, AtRead), f))
  {
    var first := Call(op, observed, AtRead);
    CompleteUnrolled(Outcome(sh, first), f);
    if f.read.Answered? {
      var next := CallStep(sh, first, f.read);
      if sh.row.last == Some(op) {
        MarkEnds(sh, next.call, f);
      } else if !f.find.Answered? {
        CompleteUnrolled(next, f);
      } else {
        var third := ToThird(sh, op, observed, f);
        if sh.row.pending == Some(op) {
          StaleFinishEnds(sh, third, f);
        } else {
          CompleteUnrolled(Outcome(sh, third), f);
        }
      }
    }
  }

  /** The answer and the effect of an uninterrupted call, whichever of its statements are lost before or after
      they execute. */
  lemma {:induction false} CallEnds(sh: Shared, op: Operation, observed: int, f: Faults)
    requires SharedInv(sh)
    ensures var done := Complete(sh, Call(op, observed, AtRead), f);
            if WillIncrement(sh.row, op, observed) && f.read.Answered? && f.find.Answered?
            then IncrementEnds(sh, op, observed, f, done) else RefusalEnds(sh, op, observed, f, done)
  {
    if WillIncrement(sh.row, op, observed) && f.read.Answered? && f.find.Answered? {
      IncrementingCallEnds(sh, op, observed, f);
    } else {
      RefusedCallEnds(sh, op, observed, f);
    }
  }

  /** No statement of call `i` runs among these events. */
  predicate Spares(events: seq<Event>, i: nat) {
    forall e | e in events :: !(e.Move? && e.i == i)
  }

  lemma {:induction false} SparedCall(s: System, events: seq<Event>, i: nat)
    requires i < |s.calls| && Spares(events, i)
    ensures i < |Run(s, events).calls| && Run(s, events).calls[i] == s.calls[i]
  {
    if events != [] {
      var init, last := events[..|events| - 1], events[|events| - 1];
      assert init + [last] == events;
      SparedCall(s, init, i);
    }
  }

  /** In any interleaving: a call whose finalisation went unanswered, and which finds its operation to be the
      last one applied when its reread is answered, returns True with the checksum it reads, whatever other
      calls do before its marker is written; it leaves that marker.  Finding another operation, it raises. */
  lemma {:induction false} LostAnswerIsReconciled(start: int, events: seq<Event>, others: seq<Event>, i: nat)
    requires ValidRun(Seeded(start), events) && i < |Run(Seeded(start), events).calls|
    requires Run(Seeded(start), events).calls[i].stage.AtReread? && Spares(others, i)
    ensures var s := Run(Seeded(start), events);
            var op := s.calls[i].op;
            var between := Run(Step(s, Move(i, Answered)), others);
            var end := Step(between, Move(i, Answered));
            && i < |end.calls|
            && (s.shared.row.last == Some(op) ==>
                  && end.calls[i].stage == Returned(true, s.shared.row.checksum)
                  && op in end.shared.markers && end.shared.markers[op] == s.shared.row.checksum
                  && end.shared.row == between.shared.row && end.shared.finals == between.shared.finals)
            && (s.shared.row.last != Some(op) ==> end.calls[i].stage.Raised?)
  {
    var s := Run(Seeded(start), events);
    SparedCall(Step(s, Move(i, Answered)), others, i);
  }

  /** The driver's client on its tables: one call of `apply_once`, statement by statement. */
  class CassandraClient {
    const start: int
    var row: Row
    var markers: map<Operation, int>
    ghost var finals: seq<Final>

    ghost function State(): Shared
      reads this
    {
      Shared(start, row, markers, finals)
    }

    constructor (start: int)
      ensures State() == Seeded(start).shared
    {
      this.start := start;
      this.row := Row(start, None, None);
      this.markers := map[];
      this.finals := [];
    }

    method WriteMarker(op: Operation, checksum: int, fault: Fault) returns (stage: Stage)
      modifies this
      ensures var done := CallStep(old(State()), Call(op, 0, AtMark(checksum)), fault);
              State() == done.shared && stage == done.call.stage
    {
      if fault.LostBefore? {
        return Raised;
      }
      markers := markers[op := checksum];
      stage := if fault.LostAfter? then Raised else Returned(true, checksum);
    }

    /** The conditional finalisation with its exception path, then the marker. */
    method FinaliseAndMark(op: Operation, observed: int, f: Faults) returns (stage: Stage)
      modifies this
      ensures var done := Complete(old(State()), Call(op, observed, AtFinish), f);
              State() == done.shared && stage == done.call.stage
    {
      ghost var begin := Outcome(State(), Call(op, observed, AtFinish));
      CompleteUnrolled(begin, f);
      CompleteUnrolled(NextStep(begin, f), f);
      CompleteUnrolled(NextStep(NextStep(begin, f), f), f);
      var applied := row.pending == Some(op) && row.checksum == observed;
      if !f.finish.LostBefore? && applied {
        row := Row(observed + 1, None, Some(op));
        finals := finals + [Final(op, observed)];
      }
      var checksum := observed + 1;
      if f.finish.Answered? {
        if !applied {
          return Returned(false, observed);
        }
      } else {
        if !f.reread.Answered? || row.last != Some(op) {
          return Raised;
        }
        checksum := row.checksum;
      }
      stage := WriteMarker(op, checksum, f.mark);
    }

    method ApplyOnce(op: Operation, observed: int, f: Faults) returns (stage: Stage)
      modifies this
      ensures var done := Complete(old(State()), Call(op, observed, AtRead), f);
              State() == done.shared && stage == done.call.stage
      ensures old(SharedInv(State())) && observed <= old(row.checksum) ==> SharedInv(State())
    {
      ghost var before := State();
      ghost var begin := Outcome(before, Call(op, observed, AtRead));
      CompleteUnrolled(begin, f);
      CompleteUnrolled(NextStep(begin, f), f);
      CompleteUnrolled(NextStep(NextStep(begin, f), f), f);
      if old(SharedInv(State())) && observed <= old(row.checksum) {
        CompleteInv(before, Call(op, observed, AtRead), f);
      }
      if !f.read.Answered? {
        return Raised;
      }
      var state := row;
      if state.last == Some(op) {
        stage := WriteMarker(op, state.checksum, f.mark);
        return;
      }
      if !f.find.Answered? {
        return Raised;
      }
      if op in markers && markers[op] == state.checksum {
        return Returned(true, state.checksum);
      }
      if state.pending != Some(op) {
        if f.reserve.LostBefore? {
          return Raised;
        }
        var reserved := row.checksum == observed && row.pending.None?;
        if reserved {
          row := row.(pending := Some(op));
        }
        if f.reserve.LostAfter? {
          return Raised;
        }
        if !reserved {
          return Returned(false, state.checksum);
        }
      }
      stage := FinaliseAndMark(op, observed, f);
    }
  }
}

/** The bounded batch poller of simulation.py.

An item is known by its place in the list of enqueued items; `retrieved` is its only field that changes.
*/
module Polling {
  import opened Model
  import opened Batches
  import Engine

  /** The fields of an item that its events repeat. */
  datatype Details = Details(correlationId: string, jobType: string, schedulerReference: Option<string>, attempt: nat)

  datatype Item = Item(jobId: JobId, scheduledAt: Time, details: Details, retrieved: bool)

  predicate Eligible(item: Item, now: Time) {
    !item.retrieved && item.scheduledAt <= now
  }

  /** The sort key's strict order. */
  predicate KeyLess(a: Item, b: Item) {
    a.scheduledAt < b.scheduledAt || (a.scheduledAt == b.scheduledAt && a.jobId < b.jobId)
  }

  predicate Within(items: seq<Item>, order: seq<nat>) {
    forall a | 0 <= a < |order| :: order[a] < |items|
  }

  /** The order of a stable sort: by key, and by place among equal keys. */
  predicate Precedes(items: seq<Item>, i: nat, k: nat) {
    && i < |items| && k < |items|
    && (KeyLess(items[i], items[k]) || (!KeyLess(items[k], items[i]) && i < k))
  }

  predicate Sorted(items: seq<Item>, order: seq<nat>) {
    forall a, b | 0 <= a < b < |order| :: Precedes(items, order[a], order[b])
  }

  /** Exactly the eligible items, in the order of a stable sort. */
  ghost predicate Listing(items: seq<Item>, now: Time, order: seq<nat>) {
    && Within(items, order) && Sorted(items, order)
    && forall i | 0 <= i < |items| :: i in order <==> Eligible(items[i], now)
  }

  // Sorting

  function InsertInto(items: seq<Item>, order: seq<nat>, i: nat): (r: seq<nat>)
    requires Within(items, order) && i < |items|
    ensures forall k: nat :: k in r <==> k in order || k == i
    ensures |r| == |order| + 1 && Within(items, r)
  {
    if order == [] then [i]
    else
      var init, last := order[..|order| - 1], order[|order| - 1];
      assert order == init + [last];
      if KeyLess(items[i], items[last]) then InsertInto(items, init, i) + [last] else order + [i]
  }

  /** The eligible ones of the first `n` items, sorted. */
  function Listed(items: seq<Item>, now: Time, n: nat): (r: seq<nat>)
    requires n <= |items|
    ensures forall i: nat :: i in r <==> i < n && Eligible(items[i], now)
    ensures Within(items, r)
  {
    if n == 0 then []
    else
      var before := Listed(items, now, n - 1);
      if Eligible(items[n - 1], now) then InsertInto(items, before, n - 1) else before
  }

  lemma SortedAppend(items: seq<Item>, order: seq<nat>, last: nat)
    requires Sorted(items, order) && last < |items| && forall k | k in order :: Precedes(items, k, last)
    ensures Sorted(items, order + [last])
  {
    assert forall a | 0 <= a < |order| :: order[a] in order;
  }

  lemma SortedInit(items: seq<Item>, order: seq<nat>, i: nat)
    requires Within(items, order) && Sorted(items, order) && order != [] && forall k | k in order :: k < i
    ensures var init, last := order[..|order| - 1], order[|order| - 1];
            && Within(items, init) && Sorted(items, init) && last < i
            && (forall k | k in init :: k < i && Precedes(items, k, last))
  {
    var init, last := order[..|order| - 1], order[|order| - 1];
    assert last in order;
    forall k | k in init ensures k < i && Precedes(items, k, last) {
      var a :| 0 <= a < |init| && init[a] == k;
      assert order[a] in order;
    }
  }

  lemma {:induction false} InsertSorted(items: seq<Item>, order: seq<nat>, i: nat)
    requires Within(items, order) && Sorted(items, order) && i < |items|
    requires forall k | k in order :: k < i
    ensures Sorted(items, InsertInto(items, order, i))
  {
    if order != [] {
      var init, last := order[..|order| - 1], order[|order| - 1];
      SortedInit(items, order, i);
      if KeyLess(items[i], items[last]) {
        InsertSorted(items, init, i);
        SortedAppend(items, InsertInto(items, init, i), last);
      } else {
        assert order == init + [last];
        SortedAppend(items, order, i);
      }
    }
  }

  lemma ListedStep(items: seq<Item>, before: seq<nat>, n: nat)
    requires 0 < n <= |items| && Within(items, before) && Sorted(items, before)
    requires forall i | i in before :: i < n - 1
    ensures Sorted(items, InsertInto(items, before, n - 1))
  {
    InsertSorted(items, before, n - 1);
  }

  lemma {:induction false} ListedSorted(items: seq<Item>, now: Time, n: nat)
    requires n <= |items|
    ensures Sorted(items, Listed(items, now, n))
  {
    if n > 0 {
      ListedSorted(items, now, n - 1);
      ListedStep(items, Listed(items, now, n - 1), n);
    }
  }

  lemma {:induction false} ListedIsListing(items: seq<Item>, now: Time)
    ensures Listing(items, now, Listed(items, now, |items|))
  {
    ListedSorted(items, now, |items|);
  }

  lemma SortedHead(items: seq<Item>, order: seq<nat>, other: seq<nat>)
    requires Within(items, order) && Sorted(items, order) && Within(items, other) && Sorted(items, other)
    requires order != [] && other != [] && order[0] in other && other[0] in order
    ensures order[0] == other[0]
  {
    var a :| 0 <= a < |other| && other[a] == order[0];
    var b :| 0 <= b < |order| && order[b] == other[0];
  }

  lemma SortedTail(items: seq<Item>, order: seq<nat>)
    requires Within(items, order) && Sorted(items, order) && order != []
    ensures Within(items, order[1..]) && Sorted(items, order[1..])
    ensures forall i: nat :: i in order[1..] <==> i in order && i != order[0]
  {
    assert order == [order[0]] + order[1..];
    forall i | i in order[1..] ensures i != order[0] {
      var a :| 0 <= a < |order[1..]| && order[1..][a] == i;
      assert Precedes(items, order[0], order[a + 1]);
    }
  }

  /** A stable sort has one result. */
  lemma {:induction false} SortedUnique(items: seq<Item>, order: seq<nat>, other: seq<nat>)
    requires Within(items, order) && Sorted(items, order) && Within(items, other) && Sorted(items, other)
    requires forall i: nat :: i in order <==> i in other
    ensures order == other
  {
    assert forall a | 0 <= a < |order| :: order[a] in other;
    assert forall a | 0 <= a < |other| :: other[a] in order;
    if order != [] && other != [] {
      SortedHead(items, order, other);
      SortedTail(items, order);
      SortedTail(items, other);
      SortedUnique(items, order[1..], other[1..]);
      assert order == [order[0]] + order[1..] && other == [other[0]] + other[1..];
    }
  }

  // One poll

  /** Python's `values[:limit]`. */
  function Prefix(order: seq<nat>, limit: int): (r: seq<nat>)
    ensures r <= order
  {
    if limit < 0 then (if |order| + limit > 0 then order[..|order| + limit] else [])
    else if limit < |order| then order[..limit] else order
  }

  /** min(maximum, retrieve_count or maximum). */
  function LimitOf(maximum: int, count: Option<int>): int {
    var asked := if count.Some? && count.value != 0 then count.value else maximum;
    if asked < maximum then asked else maximum
  }

  function Selected(items: seq<Item>, now: Time, limit: int): seq<nat> {
    Prefix(Listed(items, now, |items|), limit)
  }

  function Marked(items: seq<Item>, ids: seq<nat>): (r: seq<Item>)
    ensures |r| == |items|
  {
    seq(|items|, i requires 0 <= i < |items| => items[i].(retrieved := items[i].retrieved || i in ids))
  }

  datatype Poll = Poll(now: Time, eligible: nat, selected: seq<nat>, limit: int)

  datatype State = State(now: Time, items: seq<Item>, polls: seq<Poll>)

  datatype Operation =
    | Enqueue(jobId: JobId, scheduledAt: Time, details: Details)
    | Advance(seconds: int)
    | PollOnce(count: Option<int>)

  function PollOf(maximum: int, s: State, count: Option<int>): Poll {
    var limit := LimitOf(maximum, count);
    Poll(s.now, |Listed(s.items, s.now, |s.items|)|, Selected(s.items, s.now, limit), limit)
  }

  function AfterPoll(maximum: int, s: State, count: Option<int>): State {
    var p := PollOf(maximum, s, count);
    State(s.now, Marked(s.items, p.selected), s.polls + [p])
  }

  function Operate(maximum: int): (State, Operation) -> State {
    (s: State, op: Operation) =>
      match op
      case Enqueue(id, at, details) => s.(items := s.items + [Item(id, at, details, false)])
      case Advance(seconds) => s.(now := s.now + seconds)
      case PollOnce(count) => AfterPoll(maximum, s, count)
  }

  const IDLE: State := State(0, [], [])

  function Run(maximum: int, ops: seq<Operation>): State {
    Fold(Operate(maximum), IDLE, ops)
  }

  // At most once, and in order

  function Retrievals(polls: seq<Poll>): seq<nat> {
    if polls == [] then [] else Retrievals(polls[..|polls| - 1]) + polls[|polls| - 1].selected
  }

  /** An item is marked exactly when some poll retrieved it, and no item was retrieved twice. */
  ghost predicate Inv(s: State) {
    && Distinct(Retrievals(s.polls)) && Within(s.items, Retrievals(s.polls))
    && forall i | 0 <= i < |s.items| :: s.items[i].retrieved <==> i in Retrievals(s.polls)
  }

  lemma SelectedFacts(items: seq<Item>, now: Time, limit: int)
    ensures Within(items, Selected(items, now, limit)) && Distinct(Selected(items, now, limit))
    ensures forall i | i in Selected(items, now, limit) :: Eligible(items[i], now)
    ensures forall i, k | i in Selected(items, now, limit) && 0 <= k < |items| && Eligible(items[k], now)
              && k !in Selected(items, now, limit) :: Precedes(items, i, k)
  {
    ListedIsListing(items, now);
    var order, chosen := Listed(items, now, |items|), Selected(items, now, limit);
    forall a, b | 0 <= a < b < |chosen| ensures chosen[a] != chosen[b] {
      assert Precedes(items, order[a], order[b]);
    }
    forall i, k | i in chosen && 0 <= k < |items| && Eligible(items[k], now) && k !in chosen
      ensures Precedes(items, i, k)
    {
      assert forall c | 0 <= c < |chosen| :: order[c] in chosen;
      var a :| 0 <= a < |chosen| && chosen[a] == i;
      var b :| 0 <= b < |order| && order[b] == k;
      assert order[a] == i;
    }
  }

  lemma {:induction false} RetrievalsOne(polls: seq<Poll>, p: Poll)
    ensures Retrievals(polls + [p]) == Retrievals(polls) + p.selected
  {
    assert (polls + [p])[..|polls|] == polls;
  }

  lemma PollKeeps(maximum: int, s: State, count: Option<int>)
    requires Inv(s)
    ensures Inv(AfterPoll(maximum, s, count))
  {
    var p := PollOf(maximum, s, count);
    SelectedFacts(s.items, s.now, p.limit);
    RetrievalsOne(s.polls, p);
    var before, now := Retrievals(s.polls), p.selected;
    forall a, b | 0 <= a < b < |before + now| ensures (before + now)[a] != (before + now)[b] {
      if a < |before| <= b {
        assert before[a] in before && now[b - |before|] in now;
      }
    }
  }

  lemma {:induction false} RunKeeps(maximum: int, ops: seq<Operation>)
    ensures Inv(Run(maximum, ops))
  {
    if ops != [] {
      var init, last := ops[..|ops| - 1], ops[|ops| - 1];
      RunKeeps(maximum, init);
      if last.PollOnce? {
        PollKeeps(maximum, Run(maximum, init), last.count);
      } else {
        QuietKeeps(maximum, Run(maximum, init), last);
      }
    }
  }

  lemma QuietKeeps(maximum: int, s: State, op: Operation)
    requires Inv(s) && !op.PollOnce?
    ensures Inv(Operate(maximum)(s, op))
  {
  }

  /** Scheduled earlier, or at the same instant with a job id no greater. */
  predicate NotAfter(a: Item, b: Item) {
    a.scheduledAt < b.scheduledAt || (a.scheduledAt == b.scheduledAt && a.jobId <= b.jobId)
  }

  /** How many items a poll retrieves of n eligible ones: by default up to the maximum; asked for fewer, that
      many; asked for a negative number, all but that many. */
  lemma PollSize(maximum: int, s: State, count: Option<int>)
    requires maximum >= 0
    ensures var p, n := PollOf(maximum, s, count), |Listed(s.items, s.now, |s.items|)|;
            var asked := if count.None? || count.value == 0 || count.value > maximum then maximum else count.value;
            && p.now == s.now && p.eligible == n && p.limit == asked
            && |p.selected| == (if 0 <= asked <= n then asked else if asked > n then n
                                else if n + asked >= 0 then n + asked else 0)
  {
  }

  /** In any run no item is retrieved twice; and the next poll, whatever its limit, retrieves only eligible
      items it never retrieved before, none of them ahead of a smaller eligible one it leaves behind. */
  lemma RetrievedOnceInOrder(maximum: int, ops: seq<Operation>, count: Option<int>, i: nat, k: nat)
    ensures var s := Run(maximum, ops);
            var p := PollOf(maximum, s, count);
            && Distinct(Retrievals(s.polls) + p.selected)
            && (i in p.selected ==>
                  && i < |s.items| && i !in Retrievals(s.polls)
                  && !s.items[i].retrieved && s.items[i].scheduledAt <= s.now)
            && (i in p.selected && k < |s.items| && k !in p.selected
                && !s.items[k].retrieved && s.items[k].scheduledAt <= s.now ==>
                  NotAfter(s.items[i], s.items[k]))
            && (forall a, b | 0 <= a < b < |p.selected| ::
                  p.selected[b] < |s.items| && NotAfter(s.items[p.selected[a]], s.items[p.selected[b]]))
            && (k in EligibleNow(s) <==> k < |s.items| && !s.items[k].retrieved && s.items[k].scheduledAt <= s.now)
            && p.selected <= EligibleNow(s)
  {
    var s := Run(maximum, ops);
    var p := PollOf(maximum, s, count);
    RunKeeps(maximum, ops);
    PollKeeps(maximum, s, count);
    RetrievalsOne(s.polls, p);
    SelectedFacts(s.items, s.now, p.limit);
    SelectedSorted(s.items, s.now, p.limit);
  }

  lemma SelectedSorted(items: seq<Item>, now: Time, limit: int)
    ensures Sorted(items, Selected(items, now, limit))
  {
    ListedSorted(items, now, |items|);
    var order, chosen := Listed(items, now, |items|), Selected(items, now, limit);
    assert forall a | 0 <= a < |chosen| :: chosen[a] == order[a];
  }

  // Successive polls at one instant

  lemma {:induction false} SortedMarked(items: seq<Item>, ids: seq<nat>, order: seq<nat>)
    ensures Sorted(Marked(items, ids), order) <==> Sorted(items, order)
  {
    assert forall i: nat, k: nat :: Precedes(Marked(items, ids), i, k) <==> Precedes(items, i, k);
  }

  lemma SortedSuffix(items: seq<Item>, order: seq<nat>, m: nat)
    requires m <= |order| && Within(items, order) && Sorted(items, order)
    ensures Within(items, order[m..]) && Sorted(items, order[m..])
    ensures forall i: nat :: i in order[m..] <==> i in order && i !in order[..m]
  {
    assert order == order[..m] + order[m..];
    forall i | i in order[m..] ensures i !in order[..m] {
      var a :| 0 <= a < |order[m..]| && order[m..][a] == i;
      assert order[m + a] == i;
      assert forall b | 0 <= b < m :: Precedes(items, order[b], order[m + a]);
      assert forall b | 0 <= b < m :: order[b] != i;
    }
  }

  /** A poll leaves the eligible list without the prefix it took. */
  lemma {:induction false} ListedAfterPoll(items: seq<Item>, now: Time, m: nat)
    requires m <= |Listed(items, now, |items|)|
    ensures var order := Listed(items, now, |items|);
            Listed(Marked(items, order[..m]), now, |items|) == order[m..]
  {
    var order := Listed(items, now, |items|);
    var next := Marked(items, order[..m]);
    ListedSorted(items, now, |items|);
    ListedSorted(next, now, |items|);
    SortedMarked(items, order[..m], Listed(next, now, |items|));
    SortedSuffix(items, order, m);
    SortedUnique(items, Listed(next, now, |items|), order[m..]);
  }

  function DefaultPolls(maximum: int, s: State, k: nat): State {
    if k == 0 then s else AfterPoll(maximum, DefaultPolls(maximum, s, k - 1), None)
  }

  function EligibleNow(s: State): seq<nat> {
    Listed(s.items, s.now, |s.items|)
  }

  lemma {:induction false} DefaultPoll(maximum: nat, s: State)
    requires maximum > 0
    ensures var order := EligibleNow(s);
            var m := |order| - Left(|order|, maximum, 1);
            && PollOf(maximum, s, None).selected == order[..m]
            && EligibleNow(AfterPoll(maximum, s, None)) == order[m..]
  {
    var order := EligibleNow(s);
    var m := |order| - Left(|order|, maximum, 1);
    assert LimitOf(maximum, None) == maximum && Left(|order|, maximum, 0) == |order|;
    assert Prefix(order, maximum) == order[..m];
    ListedAfterPoll(s.items, s.now, m);
  }

  lemma {:induction false} EligibleLeft(maximum: nat, s: State, k: nat)
    requires maximum > 0
    ensures var order := EligibleNow(s);
            EligibleNow(DefaultPolls(maximum, s, k)) == order[|order| - Left(|order|, maximum, k)..]
  {
    if k > 0 {
      EligibleLeft(maximum, s, k - 1);
      DefaultPoll(maximum, DefaultPolls(maximum, s, k - 1));
    }
  }

  /** Where the k-th chunk of a list of `n` starts. */
  function ChunkStart(n: nat, size: nat, k: nat): (r: nat)
    ensures r <= n
  {
    if k * size < n then k * size else n
  }

  /** With a fixed clock and nothing enqueued, successive default polls retrieve exactly the chunks of the
      sorted eligible list, and ceil(n / maximum) of them, no fewer, retrieve it all. */
  lemma DefaultPollsAreChunks(maximum: nat, s: State, k: nat)
    requires maximum > 0
    ensures var order := EligibleNow(s);
            var t := DefaultPolls(maximum, s, k);
            && ChunkStart(|order|, maximum, k) <= ChunkStart(|order|, maximum, k + 1)
            && PollOf(maximum, t, None).selected
               == order[ChunkStart(|order|, maximum, k)..ChunkStart(|order|, maximum, k + 1)]
            && (EligibleNow(t) == [] <==> k >= CeilDiv(|order|, maximum))
  {
    var order := EligibleNow(s);
    var t := DefaultPolls(maximum, s, k);
    EligibleLeft(maximum, s, k);
    DefaultPoll(maximum, t);
    LeftIsProduct(|order|, maximum, k);
    LeftIsProduct(|EligibleNow(t)|, maximum, 1);
    CeilDivExact(|order|, maximum, k);
    NextChunk(|order|, maximum, k);
  }

  lemma NextChunk(n: nat, size: nat, k: nat)
    ensures var left := n - ChunkStart(n, size, k);
            ChunkStart(n, size, k + 1) == ChunkStart(n, size, k) + (if size < left then size else left)
  {
    assert (k + 1) * size == k * size + size;
  }

  // What a poll tells the engine

  datatype Notice = Retrieved(item: nat, position: nat) | Started(item: nat) | Completed(item: nat)

  datatype Mode = Mode(start: bool, complete: bool, emitRetrieval: bool)

  function NoticesOf(mode: Mode, capacity: int, item: nat, position: nat): seq<Notice> {
    (if mode.emitRetrieval then [Retrieved(item, position)] else [])
    + (if mode.start && position <= capacity
       then [Started(item)] + (if mode.complete then [Completed(item)] else [])
       else [])
  }

  /** An item is retrieved, then started, then completed. */
  lemma NoticeOrder(mode: Mode, capacity: int, item: nat, position: nat)
    ensures var ns := NoticesOf(mode, capacity, item, position);
            && (mode.emitRetrieval ==> ns != [] && ns[0] == Retrieved(item, position))
            && (forall k | 0 <= k < |ns| && ns[k].Completed? :: k > 0 && ns[k - 1] == Started(item) && k == |ns| - 1)
            && (forall k | 0 <= k < |ns| && ns[k].Retrieved? :: k == 0)
  {
  }

  function Notices(mode: Mode, capacity: int, selected: seq<nat>): seq<Notice> {
    if selected == [] then []
    else
      Notices(mode, capacity, selected[..|selected| - 1])
      + NoticesOf(mode, capacity, selected[|selected| - 1], |selected|)
  }

  predicate AmongFirst(selected: seq<nat>, capacity: int, i: nat) {
    exists a | 0 <= a < |selected| :: a < capacity && selected[a] == i
  }

  /** An item is started exactly when it is among the first `capacity` selected, and completed exactly when
      it is started and completion is asked for. */
  lemma {:induction false} StartedAreFirst(mode: Mode, capacity: int, selected: seq<nat>, i: nat)
    ensures Started(i) in Notices(mode, capacity, selected) <==> mode.start && AmongFirst(selected, capacity, i)
    ensures Completed(i) in Notices(mode, capacity, selected) <==>
            Started(i) in Notices(mode, capacity, selected) && mode.complete
    ensures forall p: nat :: Retrieved(i, p) in Notices(mode, capacity, selected) <==>
              mode.emitRetrieval && 1 <= p <= |selected| && selected[p - 1] == i
  {
    if selected != [] {
      var init, last := selected[..|selected| - 1], selected[|selected| - 1];
      StartedAreFirst(mode, capacity, init, i);
      assert init + [last] == selected;
      assert AmongFirst(selected, capacity, i) <==>
             AmongFirst(init, capacity, i) || (|selected| <= capacity && last == i);
    }
  }

  function ItemOf(n: Notice): nat {
    n.item
  }

  predicate About(items: seq<Item>, notices: seq<Notice>) {
    forall k | 0 <= k < |notices| :: ItemOf(notices[k]) < |items|
  }

  lemma {:induction false} NoticesAbout(mode: Mode, capacity: int, items: seq<Item>, selected: seq<nat>)
    requires Within(items, selected)
    ensures About(items, Notices(mode, capacity, selected))
  {
    if selected != [] {
      NoticesAbout(mode, capacity, items, selected[..|selected| - 1]);
    }
  }

  /** The event a notice stands for: a retrieval carries the poll's instant, a success its result code. */
  function EventFor(item: Item, n: Notice, now: Time, id: EventId): Event {
    Event(id, match n case Retrieved(_, _) => ItemRetrieved case Started(_) => ExecutionStarted
                      case Completed(_) => ExecutionSucceeded,
          now, now, item.jobId, item.details.correlationId, item.details.jobType, item.details.schedulerReference,
          Some(item.scheduledAt), item.details.attempt, None, 3, None,
          if n.Completed? then Some("SUCCESS") else None, None, if n.Retrieved? then Some(now) else None)
  }

  /** The event repeats its item, is dated by the poll, and is otherwise blank. */
  lemma EventColumns(item: Item, n: Notice, now: Time, id: EventId)
    ensures var e := EventFor(item, n, now, id);
            && e.eventId == id && e.eventTime == now && e.ingestionTime == now && e.jobId == item.jobId
            && e.correlationId == item.details.correlationId && e.jobType == item.details.jobType
            && e.schedulerReference == item.details.schedulerReference && e.scheduledAt == Some(item.scheduledAt)
            && e.attemptNumber == item.details.attempt && e.maxAttempts == 3
            && e.retryable.None? && e.nextRetryAt.None? && e.errorCode.None?
            && (n.Retrieved? ==> e.eventType.ItemRetrieved? && e.pollTime == Some(now) && e.resultCode.None?)
            && (n.Started? ==> e.eventType.ExecutionStarted? && e.pollTime.None? && e.resultCode.None?)
            && (n.Completed? ==> e.eventType.ExecutionSucceeded? && e.pollTime.None? && e.resultCode == Some("SUCCESS"))
  {
  }

  function EventsFor(items: seq<Item>, notices: seq<Notice>, now: Time, nextEvent: EventId): seq<Event>
    requires About(items, notices)
  {
    seq(|notices|, k requires 0 <= k < |notices| =>
      EventFor(items[ItemOf(notices[k])], notices[k], now, nextEvent + k))
  }

  function PollEvents(mode: Mode, capacity: int, items: seq<Item>, selected: seq<nat>, now: Time, nextEvent: EventId)
    : seq<Event>
    requires Within(items, selected)
  {
    NoticesAbout(mode, capacity, items, selected);
    EventsFor(items, Notices(mode, capacity, selected), now, nextEvent)
  }

  function DeliverOne(): (Engine.EngineState, Event) -> Engine.EngineState {
    (s: Engine.EngineState, e: Event) => Engine.Deliver(s, e, None)
  }

  function DeliverAll(s: Engine.EngineState, es: seq<Event>): Engine.EngineState {
    Fold(DeliverOne(), s, es)
  }

  /** Events numbered from a counter no earlier event has reached are all new to the engine: it logs each of
      them, in order. */
  lemma {:induction false} NumberedEventsAreLogged(s: Engine.EngineState, es: seq<Event>, nextEvent: EventId)
    requires forall x | x in s.eventIds :: x < nextEvent
    requires forall k | 0 <= k < |es| :: es[k].eventId == nextEvent + k
    ensures DeliverAll(s, es).events == s.events + es
    ensures forall x | x in DeliverAll(s, es).eventIds :: x < nextEvent + |es|
  {
    if es != [] {
      NumberedEventsAreLogged(s, es[..|es| - 1], nextEvent);
      assert es[..|es| - 1] + [es[|es| - 1]] == es;
    }
  }

  // The poller itself

  lemma MarkedEvents(items: seq<Item>, marked: seq<Item>, ids: seq<nat>, notices: seq<Notice>, now: Time, id: EventId)
    requires marked == Marked(items, ids) && About(items, notices)
    ensures About(marked, notices) && EventsFor(marked, notices, now, id) == EventsFor(items, notices, now, id)
  {
  }

  lemma EventsAppend(items: seq<Item>, notices: seq<Notice>, more: seq<Notice>, now: Time, id: EventId)
    requires About(items, notices) && About(items, more)
    ensures About(items, notices + more)
    ensures EventsFor(items, notices + more, now, id)
            == EventsFor(items, notices, now, id) + EventsFor(items, more, now, id + |notices|)
  {
  }

  /** A poll under way: the first `a` selected items are marked and their events delivered. */
  ghost predicate Polled(mode: Mode, capacity: int, items: seq<Item>, selected: seq<nat>, a: nat, now: Time,
                         first: EventId, before: Engine.EngineState, marked: seq<Item>, after: Engine.EngineState,
                         next: EventId)
    requires a <= |selected| && Within(items, selected)
  {
    && marked == Marked(items, selected[..a])
    && after == DeliverAll(before, PollEvents(mode, capacity, items, selected[..a], now, first))
    && next == first + |Notices(mode, capacity, selected[..a])|
  }

  lemma {:induction false} NoticesNext(mode: Mode, capacity: int, selected: seq<nat>, a: nat)
    requires a < |selected|
    ensures Notices(mode, capacity, selected[..a + 1])
            == Notices(mode, capacity, selected[..a]) + NoticesOf(mode, capacity, selected[a], a + 1)
  {
    assert selected[..a + 1][..a] == selected[..a];
  }

  lemma MarkOne(items: seq<Item>, selected: seq<nat>, a: nat)
    requires a < |selected| && Within(items, selected)
    ensures var m := Marked(items, selected[..a]);
            Marked(items, selected[..a + 1]) == m[selected[a] := m[selected[a]].(retrieved := true)]
  {
    assert selected[..a + 1] == selected[..a] + [selected[a]];
  }

  lemma DeliverMore(items: seq<Item>, notices: seq<Notice>, more: seq<Notice>, now: Time, first: EventId,
                    before: Engine.EngineState)
    requires About(items, notices) && About(items, more)
    ensures About(items, notices + more)
    ensures DeliverAll(DeliverAll(before, EventsFor(items, notices, now, first)),
                       EventsFor(items, more, now, first + |notices|))
            == DeliverAll(before, EventsFor(items, notices + more, now, first))
  {
    EventsAppend(items, notices, more, now, first);
    FoldAppend(DeliverOne(), before, EventsFor(items, notices, now, first),
               EventsFor(items, more, now, first + |notices|));
  }

  lemma EventsStep(items: seq<Item>, marked: seq<Item>, ids: seq<nat>, done: seq<Notice>, more: seq<Notice>,
                   all: seq<Notice>, now: Time, first: EventId, before: Engine.EngineState, after: Engine.EngineState,
                   next: EventId)
    requires all == done + more && About(items, done) && About(items, more) && marked == Marked(items, ids)
    requires after == DeliverAll(before, EventsFor(items, done, now, first)) && next == first + |done|
    ensures About(items, all) && About(marked, more)
    ensures DeliverAll(after, EventsFor(marked, more, now, next))
            == DeliverAll(before, EventsFor(items, all, now, first))
  {
    MarkedEvents(items, marked, ids, more, now, next);
    DeliverMore(items, done, more, now, first, before);
  }

  lemma NoticesOfAbout(mode: Mode, capacity: int, items: seq<Item>, i: nat, position: nat)
    requires i < |items|
    ensures About(items, NoticesOf(mode, capacity, i, position))
  {
  }

  lemma PolledNext(mode: Mode, capacity: int, items: seq<Item>, selected: seq<nat>, a: nat, now: Time, first: EventId,
                   before: Engine.EngineState, marked: seq<Item>, after: Engine.EngineState, next: EventId,
                   more: seq<Notice>)
    requires a < |selected| && Within(items, selected) && more == NoticesOf(mode, capacity, selected[a], a + 1)
    requires Polled(mode, capacity, items, selected, a, now, first, before, marked, after, next)
    ensures About(marked, more)
    ensures Polled(mode, capacity, items, selected, a + 1, now, first, before,
                   marked[selected[a] := marked[selected[a]].(retrieved := true)],
                   DeliverAll(after, EventsFor(marked, more, now, next)), next + |more|)
  {
    NoticesOfAbout(mode, capacity, items, selected[a], a + 1);
    NoticesNext(mode, capacity, selected, a);
    MarkOne(items, selected, a);
    NoticesAbout(mode, capacity, items, selected[..a]);
    EventsStep(items, marked, selected[..a], Notices(mode, capacity, selected[..a]), more,
               Notices(mode, capacity, selected[..a + 1]), now, first, before, after, next);
  }

  class PollingScheduler {
    const maximum: int
    const workerCapacity: int
    var now: Time
    var items: seq<Item>
    var polls: seq<Poll>
    const engine: Engine.VisibilityEngine
    var nextEvent: EventId

    function Snapshot(): State
      reads this
    {
      State(now, items, polls)
    }

    constructor (maximum: int, workerCapacity: int, engine: Engine.VisibilityEngine)
      ensures Snapshot() == IDLE && this.maximum == maximum && this.workerCapacity == workerCapacity
      ensures this.engine == engine && nextEvent == 0
    {
      this.engine := engine;
      this.nextEvent := 0;
      this.maximum := maximum;
      this.workerCapacity := workerCapacity;
      this.now := 0;
      this.items := [];
      this.polls := [];
    }

    method EnqueueItem(jobId: JobId, scheduledAt: Time, details: Details)
      modifies this`items
      ensures Snapshot() == Operate(maximum)(old(Snapshot()), Enqueue(jobId, scheduledAt, details))
    {
      items := items + [Item(jobId, scheduledAt, details, false)];
    }

    /** Filter the eligible items and sort them. */
    method SortedEligible() returns (order: seq<nat>)
      ensures order == EligibleNow(Snapshot())
    {
      order := [];
      for n := 0 to |items|
        invariant order == Listed(items, now, n)
      {
        if Eligible(items[n], now) {
          order := InsertInto(items, order, n);
        }
      }
    }

    method ApplyAll(events: seq<Event>)
      modifies engine
      ensures engine.State() == DeliverAll(old(engine.State()), events)
    {
      for k := 0 to |events|
        invariant engine.State() == DeliverAll(old(engine.State()), events[..k])
      {
        assert events[..k + 1][..k] == events[..k];
        var _ := engine.Apply(events[k], None);
      }
      assert events[..|events|] == events;
    }

    /** Mark the selected item at position `a` and deliver its events. */
    method PollItem(mode: Mode, i: nat, a: nat, ghost start: seq<Item>, ghost selected: seq<nat>,
                    ghost first: EventId, ghost before: Engine.EngineState)
      requires a < |selected| && Within(start, selected) && i == selected[a]
      requires Polled(mode, workerCapacity, start, selected, a, now, first, before, items, engine.State(), nextEvent)
      modifies this`items, this`nextEvent, engine
      ensures Polled(mode, workerCapacity, start, selected, a + 1, now, first, before, items, engine.State(), nextEvent)
    {
      var more := NoticesOf(mode, workerCapacity, i, a + 1);
      PolledNext(mode, workerCapacity, start, selected, a, now, first, before, items, engine.State(), nextEvent,
                 more);
      ApplyAll(EventsFor(items, more, now, nextEvent));
      items := items[i := items[i].(retrieved := true)];
      nextEvent := nextEvent + |more|;
    }

    method RunPoll(mode: Mode, count: Option<int>) returns (record: Poll)
      modifies this, engine
      ensures Snapshot() == AfterPoll(maximum, old(Snapshot()), count)
      ensures record == PollOf(maximum, old(Snapshot()), count) && Within(old(items), record.selected)
      ensures engine.State()
              == DeliverAll(old(engine.State()),
                            PollEvents(mode, workerCapacity, old(items), record.selected, now, old(nextEvent)))
      ensures nextEvent == old(nextEvent) + |Notices(mode, workerCapacity, record.selected)|
    {
      ghost var start, before, first := items, engine.State(), nextEvent;
      var order := SortedEligible();
      var asked := if count.Some? && count.value != 0 then count.value else maximum;
      var limit := if asked < maximum then asked else maximum;
      var selected := Prefix(order, limit);
      record := Poll(now, |order|, selected, limit);
      polls := polls + [record];
      SelectedFacts(items, now, limit);
      for a := 0 to |selected|
        invariant now == old(now) && polls == old(polls) + [record]
        invariant Polled(mode, workerCapacity, start, selected, a, now, first, before, items, engine.State(), nextEvent)
      {
        PollItem(mode, selected[a], a, start, selected, first, before);
      }
      assert selected[..|selected|] == selected;
    }
  }
}

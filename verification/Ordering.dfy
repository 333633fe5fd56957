/** ORDER BY (instant, id) with LIMIT, over rows whose ids are distinct. */
module Ordering {
  import opened Model

  predicate Before(t: Time, id: nat, u: Time, other: nat) {
    t < u || (t == u && id < other)
  }

  function Elements(ids: seq<nat>): set<nat> {
    set id | id in ids
  }

  /** `chosen` lists the first `limit` candidates by (instant, id), in that order. */
  ghost predicate FirstByKey(candidates: map<nat, Time>, limit: nat, chosen: seq<nat>) {
    && |chosen| == (if |candidates| < limit then |candidates| else limit)
    && (forall id | id in chosen :: id in candidates)
    && (forall i, k | 0 <= i < k < |chosen| ::
          Before(candidates[chosen[i]], chosen[i], candidates[chosen[k]], chosen[k]))
    && (forall id, other | id in chosen && other in candidates && other !in chosen ::
          Before(candidates[id], id, candidates[other], other))
  }

  /** The first `limit` candidates by (instant, id), in whatever order they come back. */
  ghost predicate FirstOf(candidates: map<nat, Time>, limit: nat, ids: seq<nat>) {
    && Distinct(ids) && |ids| == (if |candidates| < limit then |candidates| else limit)
    && (forall id | id in ids :: id in candidates)
    && (forall id, other | id in ids && other in candidates && other !in ids ::
          candidates[id] < candidates[other] || (candidates[id] == candidates[other] && id < other))
  }

  /** The first `limit` candidates by instant, ties broken in any way. */
  ghost predicate FirstByInstant(candidates: map<nat, Time>, limit: nat, ids: seq<nat>) {
    && Distinct(ids) && |ids| == (if |candidates| < limit then |candidates| else limit)
    && (forall id | id in ids :: id in candidates)
    && (forall id, other | id in ids && other in candidates && other !in ids :: candidates[id] <= candidates[other])
  }

  lemma ListedFirst(candidates: map<nat, Time>, limit: nat, ids: seq<nat>)
    requires FirstByKey(candidates, limit, ids)
    ensures FirstOf(candidates, limit, ids) && FirstByInstant(candidates, limit, ids)
  {
  }

  method LeastKey(candidates: map<nat, Time>) returns (least: nat)
    requires |candidates| > 0
    ensures least in candidates
    ensures forall id | id in candidates && id != least :: Before(candidates[least], least, candidates[id], id)
  {
    var rest := candidates.Keys;
    assert rest != {};
    least :| least in rest;
    rest := rest - {least};
    while rest != {}
      invariant least in candidates && rest <= candidates.Keys
      invariant forall id | id in candidates && id !in rest && id != least ::
                  Before(candidates[least], least, candidates[id], id)
      decreases |rest|
    {
      var id :| id in rest;
      rest := rest - {id};
      if Before(candidates[id], id, candidates[least], least) {
        least := id;
      }
    }
  }

  method SelectFirst(candidates: map<nat, Time>, limit: nat) returns (chosen: seq<nat>)
    ensures FirstByKey(candidates, limit, chosen)
  {
    chosen := [];
    var rest := candidates;
    while |chosen| < limit && |rest| > 0
      invariant |chosen| <= limit && |chosen| + |rest| == |candidates|
      invariant forall id :: id in candidates <==> id in chosen || id in rest
      invariant forall id | id in rest :: id !in chosen && rest[id] == candidates[id]
      invariant forall i, k | 0 <= i < k < |chosen| ::
                  Before(candidates[chosen[i]], chosen[i], candidates[chosen[k]], chosen[k])
      invariant forall id, other | id in chosen && other in rest ::
                  Before(candidates[id], id, candidates[other], other)
      decreases |rest|
    {
      var least := LeastKey(rest);
      ghost var before := rest;
      chosen := chosen + [least];
      rest := rest - {least};
      assert before.Keys == rest.Keys + {least};
    }
  }

  // The listing as a function of the candidates

  predicate IsLeast(candidates: map<nat, Time>, least: nat) {
    && least in candidates
    && forall id | id in candidates && id != least :: Before(candidates[least], least, candidates[id], id)
  }

  lemma {:induction false} LeastExists(candidates: map<nat, Time>)
    requires candidates != map[]
    ensures exists least :: IsLeast(candidates, least)
    decreases |candidates|
  {
    var some :| some in candidates;
    var rest := candidates - {some};
    if rest == map[] {
      assert candidates.Keys == {some} + rest.Keys;
      assert IsLeast(candidates, some);
    } else {
      assert candidates.Keys == {some} + rest.Keys;
      LeastExists(rest);
      var least :| IsLeast(rest, least);
      if Before(candidates[some], some, candidates[least], least) {
        assert IsLeast(candidates, some);
      } else {
        assert IsLeast(candidates, least);
      }
    }
  }

  /** All candidates in order. */
  ghost function Ordered(candidates: map<nat, Time>): seq<nat>
    decreases |candidates|
  {
    if candidates == map[] then []
    else
      LeastExists(candidates);
      var least :| IsLeast(candidates, least);
      assert candidates.Keys == {least} + (candidates - {least}).Keys;
      [least] + Ordered(candidates - {least})
  }

  lemma {:induction false} OrderedUnfolds(candidates: map<nat, Time>, least: nat)
    requires IsLeast(candidates, least)
    ensures Ordered(candidates) == [least] + Ordered(candidates - {least})
  {
  }

  lemma WithoutOne(candidates: map<nat, Time>, id: nat)
    requires id in candidates
    ensures |candidates - {id}| == |candidates| - 1
    ensures forall other :: other in candidates - {id} <==> other in candidates && other != id
  {
    assert candidates.Keys == {id} + (candidates - {id}).Keys;
  }

  lemma FirstHead(candidates: map<nat, Time>, limit: nat, chosen: seq<nat>)
    requires FirstByKey(candidates, limit, chosen) && chosen != []
    ensures IsLeast(candidates, chosen[0])
  {
    forall id | id in candidates && id != chosen[0]
      ensures Before(candidates[chosen[0]], chosen[0], candidates[id], id)
    {
      if id in chosen {
        var k :| 0 <= k < |chosen| && chosen[k] == id;
      }
    }
  }

  lemma FirstTail(candidates: map<nat, Time>, limit: nat, chosen: seq<nat>)
    requires FirstByKey(candidates, limit, chosen) && chosen != []
    ensures FirstByKey(candidates - {chosen[0]}, limit - 1, chosen[1..])
  {
    var least, tail, rest := chosen[0], chosen[1..], candidates - {chosen[0]};
    WithoutOne(candidates, least);
    forall id | id in tail ensures id in rest {
      var k :| 0 <= k < |tail| && tail[k] == id;
      assert chosen[k + 1] == id;
    }
    forall id, other | id in tail && other in rest && other !in tail
      ensures Before(rest[id], id, rest[other], other)
    {
      assert id in chosen && other !in chosen;
    }
  }

  lemma {:induction false} FirstIsPrefix(candidates: map<nat, Time>, limit: nat, chosen: seq<nat>)
    requires FirstByKey(candidates, limit, chosen)
    ensures |chosen| <= |Ordered(candidates)| && chosen == Ordered(candidates)[..|chosen|]
    decreases |chosen|
  {
    if chosen != [] {
      FirstHead(candidates, limit, chosen);
      OrderedUnfolds(candidates, chosen[0]);
      FirstTail(candidates, limit, chosen);
      FirstIsPrefix(candidates - {chosen[0]}, limit - 1, chosen[1..]);
      assert chosen == [chosen[0]] + chosen[1..];
    }
  }

  lemma ListingPrepend(candidates: map<nat, Time>, least: nat, tail: seq<nat>)
    requires IsLeast(candidates, least)
    requires FirstByKey(candidates - {least}, |candidates - {least}|, tail)
    ensures FirstByKey(candidates, |candidates|, [least] + tail)
  {
    var rest, all := candidates - {least}, [least] + tail;
    WithoutOne(candidates, least);
    ListingComplete(rest, tail);
    assert forall id :: id in all <==> id == least || id in tail;
    assert forall id :: id in Elements(tail) <==> id in tail;
    SortedPrepend(candidates, least, tail);
  }

  lemma SortedPrepend(candidates: map<nat, Time>, least: nat, tail: seq<nat>)
    requires IsLeast(candidates, least) && forall id | id in tail :: id in candidates && id != least
    requires forall i, k | 0 <= i < k < |tail| :: Before(candidates[tail[i]], tail[i], candidates[tail[k]], tail[k])
    ensures var all := [least] + tail;
            && (forall id | id in all :: id in candidates)
            && (forall i, k | 0 <= i < k < |all| :: Before(candidates[all[i]], all[i], candidates[all[k]], all[k]))
  {
    assert forall k | 0 <= k < |tail| :: tail[k] in tail;
  }

  lemma {:induction false} OrderedIsListing(candidates: map<nat, Time>)
    ensures FirstByKey(candidates, |candidates|, Ordered(candidates))
    decreases |candidates|
  {
    if candidates == map[] {
      assert candidates.Keys == {};
    } else {
      LeastExists(candidates);
      var least :| IsLeast(candidates, least);
      WithoutOne(candidates, least);
      OrderedUnfolds(candidates, least);
      OrderedIsListing(candidates - {least});
      ListingPrepend(candidates, least, Ordered(candidates - {least}));
    }
  }

  /** A listing without a limit names every candidate. */
  lemma ListingComplete(candidates: map<nat, Time>, all: seq<nat>)
    requires FirstByKey(candidates, |candidates|, all)
    ensures Elements(all) == candidates.Keys && Distinct(all)
  {
    DistinctCount(all);
    SubsetSame(Elements(all), candidates.Keys);
  }

  lemma {:induction false} DistinctCount(ids: seq<nat>)
    requires Distinct(ids)
    ensures |Elements(ids)| == |ids|
  {
    if ids != [] {
      DistinctCount(ids[1..]);
      assert ids == [ids[0]] + ids[1..];
      assert Elements(ids) == {ids[0]} + Elements(ids[1..]);
    }
  }

  lemma SubsetSame(a: set<nat>, b: set<nat>)
    requires a <= b && |a| == |b|
    ensures a == b
  {
    assert b == a + (b - a);
  }
}

/** How many batches drain a number of entries. */
module Batches {
  /** What is left of `n` after so many batches. */
  function Left(n: nat, batch: nat, calls: nat): (left: nat)
    ensures left <= n
  {
    if calls == 0 then n
    else
      var before := Left(n, batch, calls - 1);
      if batch < before then before - batch else 0
  }

  lemma LeftStep(n: nat, batch: nat, calls: nat)
    requires calls > 0
    ensures Left(n, batch, calls) == Left(Left(n, batch, calls - 1), batch, 1)
  {
    assert Left(Left(n, batch, calls - 1), batch, 0) == Left(n, batch, calls - 1);
  }

  lemma {:induction false} LeftRepeated(sizes: seq<nat>, batch: nat, calls: nat)
    requires calls < |sizes| && forall k | 0 < k < |sizes| :: sizes[k] == Left(sizes[k - 1], batch, 1)
    ensures sizes[calls] == Left(sizes[0], batch, calls)
  {
    if calls > 0 {
      LeftRepeated(sizes, batch, calls - 1);
      LeftStep(sizes[0], batch, calls);
    }
  }

  lemma {:induction false} LeftIsProduct(n: nat, batch: nat, calls: nat)
    ensures Left(n, batch, calls) == if calls * batch < n then n - calls * batch else 0
  {
    if calls > 0 {
      LeftIsProduct(n, batch, calls - 1);
      assert calls * batch == (calls - 1) * batch + batch;
    }
  }

  function CeilDiv(n: nat, d: nat): nat
    requires d > 0
  {
    (n + d - 1) / d
  }

  lemma CeilDivExact(n: nat, d: nat, k: nat)
    requires d > 0
    ensures k * d >= n <==> k >= CeilDiv(n, d)
  {
    var q := CeilDiv(n, d);
    assert q * d <= n + d - 1 < q * d + d;
    if k >= q {
      assert k * d >= q * d;
    } else {
      assert k * d <= (q - 1) * d;
    }
  }
}

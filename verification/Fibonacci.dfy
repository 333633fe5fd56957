/** Fast doubling and the Fibonacci handler's loop. */
module Fibonacci {
  import opened Model

  /** The recurrence itself. */
  function Fib(n: nat): nat {
    if n < 2 then n else Fib(n - 2) + Fib(n - 1)
  }

  /** F(2k) and F(2k + 1) from F(k) and F(k + 1). */
  function Doubled(first: int, second: int): (int, int) {
    (first * (2 * second - first), first * first + second * second)
  }

  /** The source's `pair`. */
  function Pair(value: nat): (int, int) {
    if value == 0 then (0, 1)
    else
      var (first, second) := Pair(value / 2);
      var (low, high) := Doubled(first, second);
      if value % 2 == 1 then (high, low + high) else (low, high)
  }

  /** Two steps of doubling hold at once, for the successor needs both. */
  lemma {:induction false} Doubling(k: nat)
    ensures Doubled(Fib(k), Fib(k + 1)) == (Fib(2 * k), Fib(2 * k + 1))
  {
    if k > 0 {
      Doubling(k - 1);
      Recurrences(k);
      DoublingStep(Fib(k - 1), Fib(k));
    }
  }

  lemma Recurrences(k: nat)
    requires k > 0
    ensures Fib(k + 1) == Fib(k - 1) + Fib(k)
    ensures Fib(2 * k) == Fib(2 * k - 2) + Fib(2 * k - 1)
    ensures Fib(2 * k + 1) == Fib(2 * k - 1) + Fib(2 * k)
  {
  }

  lemma DoublingStep(a: int, b: int)
    ensures var (p, q) := Doubled(a, b); Doubled(b, a + b) == (p + q, q + (p + q))
  {
    LowDoubled(a, b);
    LowDoubled(b, a + b);
    Square(a, b);
    Distribute(b, a, b);
  }

  lemma LowDoubled(a: int, b: int)
    ensures Doubled(a, b).0 == 2 * (a * b) - a * a
  {
    Distribute(a, b, b - a);
    Distribute(a, b, -a);
  }

  lemma Square(a: int, b: int)
    ensures (a + b) * (a + b) == a * a + 2 * (a * b) + b * b
  {
    Distribute(a + b, a, b);
    Distribute(a, a, b);
    Distribute(b, a, b);
  }

  lemma Distribute(x: int, y: int, z: int)
    ensures x * (y + z) == x * y + x * z
  {
  }

  /** Fast doubling refines the recurrence. */
  lemma {:induction false} PairIsFib(n: nat)
    ensures Pair(n) == (Fib(n), Fib(n + 1))
  {
    if n > 0 {
      PairIsFib(n / 2);
      Doubling(n / 2);
      Halves(n);
    }
  }

  lemma Halves(n: nat)
    ensures if n % 2 == 1 then n == 2 * (n / 2) + 1 && Fib(n + 1) == Fib(2 * (n / 2)) + Fib(n) else n == 2 * (n / 2)
  {
  }

  lemma {:induction false} FibGrows(n: nat)
    ensures n >= 2 ==> Fib(n) < Fib(n + 1)
    ensures Fib(n) <= Fib(n + 1)
    ensures Fib(n + 1) >= 1 && Fib(n) + 1 >= n
  {
    if n >= 2 {
      FibGrows(n - 1);
      FibGrows(n - 2);
      assert Fib(n + 1) == Fib(n - 1) + Fib(n);
      assert Fib(n) == Fib(n - 2) + Fib(n - 1);
    }
  }

  lemma {:induction false} FibMonotone(i: nat, k: nat)
    requires i <= k
    ensures Fib(i) <= Fib(k)
    decreases k - i
  {
    if i < k {
      FibGrows(i);
      FibMonotone(i + 1, k);
    }
  }

  /** The source's `fibonacci`; a negative number is an error. */
  function Fibonacci(number: int): (r: Option<int>)
    ensures r.None? <==> number < 0
  {
    if number < 0 then None else Some(Pair(number).0)
  }

  method Compute(number: nat) returns (value: int)
    ensures value == Fib(number)
  {
    PairIsFib(number);
    value := Fibonacci(number).value;
  }

  /** The handler's loop collects exactly the Fibonacci numbers up to the limit, in order. */
  method CollectUpTo(limit: nat) returns (values: seq<int>)
    ensures values != []
    ensures forall i | 0 <= i < |values| :: values[i] == Fib(i) <= limit
    ensures forall i: nat | i >= |values| :: Fib(i) > limit
  {
    values := [];
    var index := 0;
    while true
      invariant |values| == index
      invariant forall i | 0 <= i < index :: values[i] == Fib(i) <= limit
      decreases limit + 2 - index
    {
      var value := Compute(index);
      if value > limit {
        break;
      }
      FibGrows(index);
      values := values + [value];
      index := index + 1;
    }
    forall i: nat | i >= index ensures Fib(i) > limit {
      FibMonotone(index, i);
    }
  }

  /** The `limit` of a payload: absent, of another type (booleans included), or an integer. */
  datatype Limit = Absent | Other | Integer(value: int)

  datatype FibonacciSummary = InvalidLimit | Summary(count: nat, lastValue: int, resultHash: string)

  function Asked(limit: Limit): Option<int> {
    match limit
    case Absent => Some(10_000)
    case Other => None
    case Integer(value) => if 0 <= value <= 10_000 then Some(value) else None
  }

  /** The handler refuses limits other than integers in 0..10000, takes 10000 when there is none, and reports
      how many Fibonacci numbers do not exceed the limit, the greatest of them, and the digest of the list. */
  method FibonacciHandler(limit: Limit, hash: seq<int> -> string) returns (result: FibonacciSummary)
    ensures result.InvalidLimit? <==> limit.Other? || (limit.Integer? && !(0 <= limit.value <= 10_000))
    ensures result.Summary? ==>
              && result.count > 0
              && result.lastValue == Fib(result.count - 1)
              && result.lastValue <= (if limit.Integer? then limit.value else 10_000) < Fib(result.count)
              && result.resultHash == hash(seq(result.count, i requires 0 <= i < result.count => Fib(i)))
  {
    var asked := Asked(limit);
    if asked.None? {
      return InvalidLimit;
    }
    var values := CollectUpTo(asked.value);
    assert values == seq(|values|, i requires 0 <= i < |values| => Fib(i));
    result := Summary(|values|, values[|values| - 1], hash(values));
  }
}

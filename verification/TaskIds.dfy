/** Allocation of task ids: a 64-bit counter from 1 that skips the root's id 0. */
module TaskIdSpec {
  import opened Wrappers

  // One call of the allocator at counter value `n`: the id handed out, and the new counter.
  function Issue(n: nat): (nat, nat) {
    if n == 0 then (1, 2) else (n, WrappingSucc(n))
  }

  // The counter before the `k`-th call, counting from 1.
  function CounterAt(k: nat): nat
    requires k >= 1
  {
    if k == 1 then 1 else Issue(CounterAt(k - 1)).1
  }

  function IdAt(k: nat): nat
    requires k >= 1
  {
    Issue(CounterAt(k)).0
  }

  // Ids run through 1, 2, ..., 2^64 - 1 and start over; 0 is never handed out.
  lemma {:induction false} IdsAreCyclic(k: nat)
    requires k >= 1
    ensures IdAt(k) == (k - 1) % (U64 - 1) + 1
    ensures CounterAt(k) < U64
  {
    if k > 1 {
      IdsAreCyclic(k - 1);
      ModSucc(k - 2, U64 - 1);
    }
  }

  lemma ModSucc(a: nat, m: nat)
    requires m > 1
    ensures (a + 1) % m == if a % m + 1 == m then 0 else a % m + 1
  {
    var q, r := a / m, a % m;
    assert a + 1 == q * m + (r + 1);
    if r + 1 == m {
      assert a + 1 == (q + 1) * m;
      ModUnique(a + 1, m, q + 1, 0);
    } else {
      ModUnique(a + 1, m, q, r + 1);
    }
  }

  lemma ModUnique(a: nat, m: nat, q: int, r: int)
    requires m > 0 && a == q * m + r && 0 <= r < m
    ensures a % m == r
  {
    var d := a / m - q;
    assert a == a / m * m + a % m;
    assert d * m == r - a % m;
    MultipleIsFar(d, m);
  }

  lemma MultipleIsFar(d: int, m: int)
    requires m >= 0
    ensures d >= 1 ==> d * m >= m
    ensures d <= -1 ==> d * m <= -m
  {}

  // Among any 2^64 - 1 consecutive ids no two are equal, so a live task's id is not handed
  // out again before the counter has gone all the way round.
  lemma IdsAreDistinctWithinACycle(j: nat, k: nat)
    requires 1 <= j < k < j + (U64 - 1)
    ensures IdAt(j) != IdAt(k)
  {
    IdsAreCyclic(j);
    IdsAreCyclic(k);
    var m := U64 - 1;
    var d := (k - 1) / m - (j - 1) / m;
    assert k - j == d * m + ((k - 1) % m - (j - 1) % m);
    MultipleIsFar(d, m);
  }
}

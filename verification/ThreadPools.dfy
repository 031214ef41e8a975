/** net/event_loop_thread_pool: the loops and the round-robin choice among them. */
module ThreadPools {

  class EventLoopThreadPool<L> {
    const baseLoop: L
    var loops: seq<L>
    var next: nat
    /** How often get_next_loop has been called since the loops were started. */
    ghost var calls: nat

    ghost predicate Valid()
      reads this
    {
      if loops == [] then next == 0 else next == calls % |loops|
    }

    constructor (baseLoop: L)
      ensures Valid() && this.baseLoop == baseLoop && loops == [] && calls == 0
    {
      this.baseLoop, loops, next, calls := baseLoop, [], 0, 0;
    }

    /** start: one loop for each new thread, in the order of the threads. */
    method Start(started: seq<L>)
      requires Valid() && calls == 0
      modifies this
      ensures Valid() && calls == 0 && loops == old(loops) + started
    {
      for i := 0 to |started|
        invariant loops == old(loops) + started[..i] && next == 0 && calls == 0
      {
        loops := loops + [started[i]];
      }
    }

    /** The k-th call, counted from 0, returns loop k modulo their number. */
    method GetNextLoop() returns (loop: L)
      requires Valid()
      modifies this
      ensures Valid() && loops == old(loops) && calls == old(calls) + 1
      ensures loop == if loops == [] then baseLoop else loops[old(calls) % |loops|]
    {
      loop := baseLoop;
      if loops != [] {
        DivStep(calls, |loops|);
        loop := loops[next];
        next := next + 1;
        if next >= |loops| {
          next := 0;
        }
      }
      calls := calls + 1;
    }
  }

  /** How many of the first `k` calls among `n` loops returned loop `i`. */
  function Served(n: nat, k: nat, i: nat): nat
    requires i < n
  {
    if k == 0 then 0 else Served(n, k - 1, i) + if (k - 1) % n == i then 1 else 0
  }

  lemma AtLeastOnce(a: int, n: int)
    requires a > 0 && n > 0
    ensures a * n >= n
  {
    assert (a - 1) * n >= 0;
  }

  /** The only multiple of n strictly between -n and n is 0. */
  lemma Multiple(a: int, n: int, r: int)
    requires n > 0 && a * n == r && r < n && -r < n
    ensures a == 0
  {
    assert (-a) * n == -r;
    if a > 0 {
      AtLeastOnce(a, n);
    } else if a < 0 {
      AtLeastOnce(-a, n);
    }
  }

  lemma DivUnique(k: nat, n: nat, q: nat, r: nat)
    requires r < n && k == q * n + r
    ensures k / n == q && k % n == r
  {
    var q', r' := k / n, k % n;
    assert k == q' * n + r';
    assert (q - q') * n == q * n - q' * n;
    Multiple(q - q', n, r' - r);
  }

  lemma DivStep(k: nat, n: nat)
    requires n > 0
    ensures (k + 1) % n == if k % n == n - 1 then 0 else k % n + 1
    ensures (k + 1) / n == k / n + if k % n == n - 1 then 1 else 0
  {
    var q, r := k / n, k % n;
    assert k == q * n + r;
    if r == n - 1 {
      assert (q + 1) * n == q * n + n;
      DivUnique(k + 1, n, q + 1, 0);
    } else {
      DivUnique(k + 1, n, q, r + 1);
    }
  }

  lemma {:induction false} ServedExactly(n: nat, k: nat, i: nat)
    requires i < n
    ensures Served(n, k, i) == k / n + if i < k % n then 1 else 0
    decreases k
  {
    if k == 0 {
      DivUnique(0, n, 0, 0);
    } else {
      ServedExactly(n, k - 1, i);
      DivStep(k - 1, n);
    }
  }

  /** After any number of calls, any two loops have been returned equally often, give or
      take one; and a lower-numbered loop never less often than a higher one. */
  lemma RoundRobinIsFair(n: nat, k: nat, i: nat, j: nat)
    requires i <= j < n
    ensures Served(n, k, j) <= Served(n, k, i) <= Served(n, k, j) + 1
  {
    ServedExactly(n, k, i);
    ServedExactly(n, k, j);
  }
}

/**
 * The round robin of `IOService::nextIO`: a shared std::size_t counter, which
 * wraps around, is reduced modulo the number of contexts.
 */
module RoundRobin {

  /** The context of the n-th call, counted from 0, for a counter with `modulus` values and `size` contexts. */
  function Pick(n: nat, modulus: nat, size: nat): (c: nat)
    requires modulus > 0 && size > 0
    ensures c < size
  {
    (n % modulus) % size
  }

  class IOService {
    const poolSize: nat
    const modulus: nat
    var ioIndex: nat
    ghost var calls: nat

    ghost predicate Valid()
      reads this
    {
      poolSize > 0 && modulus > 0 && ioIndex == calls % modulus
    }

    constructor (threadCount: nat, modulus: nat)
      requires threadCount > 0 && modulus > 0
      ensures Valid() && calls == 0 && poolSize == threadCount && this.modulus == modulus
    {
      poolSize, this.modulus, ioIndex, calls := threadCount, modulus, 0, 0;
    }

    /** The constructor throws when there is no context at all. */
    static method Create(threadCount: int, modulus: nat) returns (service: IOService?)
      requires modulus > 0
      ensures service == null <==> threadCount <= 0
      ensures service != null ==> fresh(service) && service.Valid() && service.poolSize == threadCount
    {
      if threadCount <= 0 {
        return null;
      }
      service := new IOService(threadCount, modulus);
    }

    method NextIO() returns (context: nat)
      requires Valid()
      modifies this
      ensures Valid() && calls == old(calls) + 1
      ensures context == Pick(old(calls), modulus, poolSize) < poolSize
    {
      context := ioIndex % poolSize;
      DivModNext(calls, modulus);
      ioIndex := if ioIndex + 1 == modulus then 0 else ioIndex + 1;
      calls := calls + 1;
    }
  }

  // ---------------------------------------------------------------------------
  // Division
  // ---------------------------------------------------------------------------

  lemma MulNext(q: nat, x: nat)
    ensures (q + 1) * x == q * x + x
  {
  }

  lemma MulMonotone(d: nat, p: nat, q: nat)
    requires p < q
    ensures d * p + d <= d * q
  {
    assert d * q == d * (p + 1) + d * (q - p - 1);
  }

  lemma DivModUnique(n: nat, d: nat, q: nat, r: nat)
    requires r < d && n == d * q + r
    ensures n / d == q && n % d == r
  {
    var p := n / d;
    assert n == d * p + n % d;
    if p < q {
      MulMonotone(d, p, q);
    } else if p > q {
      MulMonotone(d, q, p);
    }
  }

  lemma DivModNext(n: nat, d: nat)
    requires d > 0
    ensures n % d + 1 < d ==> (n + 1) / d == n / d && (n + 1) % d == n % d + 1
    ensures n % d + 1 == d ==> (n + 1) / d == n / d + 1 && (n + 1) % d == 0
  {
    assert n == d * (n / d) + n % d;
    if n % d + 1 < d {
      DivModUnique(n + 1, d, n / d, n % d + 1);
    } else {
      assert d * (n / d + 1) == d * (n / d) + d;
      DivModUnique(n + 1, d, n / d + 1, 0);
    }
  }

  // ---------------------------------------------------------------------------
  // Fairness
  // ---------------------------------------------------------------------------

  /** How often context `c` is picked in the first `n` calls. */
  function Count(n: nat, modulus: nat, size: nat, c: nat): nat
    requires modulus > 0 && size > 0
  {
    if n == 0 then 0
    else Count(n - 1, modulus, size, c) + if Pick(n - 1, modulus, size) == c then 1 else 0
  }

  /** How many of the numbers below `m` leave remainder `c`. */
  function Share(m: nat, size: nat, c: nat): nat
    requires size > 0
  {
    m / size + if c < m % size then 1 else 0
  }

  lemma ShareNext(m: nat, size: nat, c: nat)
    requires c < size
    ensures Share(m + 1, size, c) == Share(m, size, c) + if m % size == c then 1 else 0
  {
    DivModNext(m, size);
  }

  lemma ShareOrder(m: nat, size: nat, c: nat, d: nat)
    requires c <= d < size
    ensures 0 <= Share(m, size, c) - Share(m, size, d) <= 1
  {
  }

  /** The shares of `q` whole rounds and of a part of the next. */
  function Rounds(q: nat, round: nat, part: nat): nat {
    q * round + part
  }

  /** Every wrap of the counter gives each context the share of a whole round. */
  lemma {:induction false} CountIsShares(n: nat, modulus: nat, size: nat, c: nat)
    requires modulus > 0 && c < size
    ensures Count(n, modulus, size, c) == Rounds(n / modulus, Share(modulus, size, c), Share(n % modulus, size, c))
  {
    if n == 0 {
      DivModUnique(0, modulus, 0, 0);
      DivModUnique(0, size, 0, 0);
    } else {
      var m := n - 1;
      CountIsShares(m, modulus, size, c);
      DivModNext(m, modulus);
      ShareNext(m % modulus, size, c);
      if m % modulus + 1 == modulus {
        DivModUnique(0, size, 0, 0);
        MulNext(m / modulus, Share(modulus, size, c));
      }
    }
  }

  lemma RoundsOrder(q: nat, a: nat, b: nat, x: nat, y: nat)
    requires b <= a <= b + 1 && y <= x <= y + 1
    ensures 0 <= Rounds(q, a, x) - Rounds(q, b, y) <= q + 1
  {
    if a == b + 1 {
      assert q * (b + 1) == q * b + q;
    }
  }

  lemma RoundsFair(q: nat, r: nat, modulus: nat, size: nat, c: nat, d: nat)
    requires c <= d < size
    ensures var ahead := Rounds(q, Share(modulus, size, c), Share(r, size, c));
            0 <= ahead - Rounds(q, Share(modulus, size, d), Share(r, size, d)) <= q + 1
  {
    ShareOrder(modulus, size, c, d);
    ShareOrder(r, size, c, d);
    RoundsOrder(q, Share(modulus, size, c), Share(modulus, size, d), Share(r, size, c), Share(r, size, d));
  }

  lemma CountsAsRounds(n: nat, modulus: nat, size: nat, c: nat, d: nat) returns (q: nat, r: nat)
    requires modulus > 0 && c <= d < size
    ensures q == n / modulus
    ensures Count(n, modulus, size, c) == Rounds(q, Share(modulus, size, c), Share(r, size, c))
    ensures Count(n, modulus, size, d) == Rounds(q, Share(modulus, size, d), Share(r, size, d))
  {
    q, r := n / modulus, n % modulus;
    CountIsShares(n, modulus, size, c);
    CountIsShares(n, modulus, size, d);
  }

  /** Two contexts differ by at most one per wrap of the counter and one more; earlier contexts are ahead. */
  lemma FairAcrossWraps(n: nat, modulus: nat, size: nat, c: nat, d: nat)
    requires modulus > 0 && c <= d < size
    ensures 0 <= Count(n, modulus, size, c) - Count(n, modulus, size, d) <= n / modulus + 1
  {
    var q, r := CountsAsRounds(n, modulus, size, c, d);
    RoundsFair(q, r, modulus, size, c, d);
  }

  lemma FairWithoutRemainder(n: nat, modulus: nat, size: nat, c: nat, d: nat)
    requires modulus > 0 && c <= d < size && modulus % size == 0
    ensures 0 <= Count(n, modulus, size, c) - Count(n, modulus, size, d) <= 1
  {
    CountIsShares(n, modulus, size, c);
    CountIsShares(n, modulus, size, d);
  }

  lemma UnfairWithRemainder(modulus: nat, size: nat)
    requires modulus > 0 && size > 0 && modulus % size != 0
    ensures Count(2 * modulus, modulus, size, 0) == Count(2 * modulus, modulus, size, size - 1) + 2
  {
    CountIsShares(2 * modulus, modulus, size, 0);
    CountIsShares(2 * modulus, modulus, size, size - 1);
    DivModUnique(2 * modulus, modulus, 2, 0);
    DivModUnique(0, size, 0, 0);
  }

  /** The round robin stays balanced for ever exactly if the number of contexts divides the range of the counter. */
  lemma BalancedExactlyWhenDivides(modulus: nat, size: nat)
    requires modulus > 0 && size > 0
    ensures (forall n: nat, c: nat, d: nat :: c <= d < size ==>
               Count(n, modulus, size, c) - Count(n, modulus, size, d) <= 1)
       <==> modulus % size == 0
  {
    if modulus % size == 0 {
      forall n: nat, c: nat, d: nat | c <= d < size
        ensures Count(n, modulus, size, c) - Count(n, modulus, size, d) <= 1
      {
        FairWithoutRemainder(n, modulus, size, c, d);
      }
    } else {
      UnfairWithRemainder(modulus, size);
      assert 0 <= size - 1 < size;
    }
  }
}

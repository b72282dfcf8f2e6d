/** Buffers that grow by doubling. */
module Growth {
  /** `n` is `base` doubled some number of times. */
  predicate DoubledFrom(base: nat, n: nat)
    requires base > 0
  {
    n == base || (n > base && n % 2 == 0 && DoubledFrom(base, n / 2))
  }

  function Pow2(k: nat): nat {
    if k == 0 then 1 else 2 * Pow2(k - 1)
  }

  /** That is: `base` times a power of two. */
  lemma {:induction false} DoubledIsPower(base: nat, n: nat)
    requires base > 0
    ensures DoubledFrom(base, n) <==> exists k: nat :: n == base * Pow2(k)
    decreases n
  {
    assert base * Pow2(0) == base;
    if k: nat :| n == base * Pow2(k) && k > 0 {
      HalfOfPower(base, n, k);
      DoubledIsPower(base, n / 2);
    }
    if DoubledFrom(base, n) && n != base {
      DoubledIsPower(base, n / 2);
      var k: nat :| n / 2 == base * Pow2(k);
      HalfOfPower(base, base * Pow2(k + 1), k + 1);
      assert n == base * Pow2(k + 1);
    }
  }

  lemma HalfOfPower(base: nat, n: nat, k: nat)
    requires base > 0 && k > 0 && n == base * Pow2(k)
    ensures n == 2 * (base * Pow2(k - 1)) && n % 2 == 0 && n / 2 == base * Pow2(k - 1) && n > base
  {
    PowPositive(k - 1);
    assert base * Pow2(k) == 2 * (base * Pow2(k - 1));
    assert base * Pow2(k - 1) >= base;
  }

  lemma {:induction false} PowPositive(k: nat)
    ensures Pow2(k) > 0
  {
    if k > 0 { PowPositive(k - 1); }
  }

  lemma DoubleOnce(base: nat, n: nat)
    requires base > 0 && DoubledFrom(base, n)
    ensures DoubledFrom(base, 2 * n) && n >= base
  {
  }
}

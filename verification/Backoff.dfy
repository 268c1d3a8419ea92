/**
 The delay before the next copy attempt, in 64-bit nanoseconds.
 */
module Backoff {
  const MAX_INT64: int := 0x7FFF_FFFF_FFFF_FFFF

  function Pow2(n: nat): (p: int)
    ensures p >= 1
  {
    if n == 0 then 1 else 2 * Pow2(n - 1)
  }

  function Min(a: int, b: int): int {
    if a <= b then a else b
  }

  /** The shift stops at 62 and the product is guarded by a division. */
  function Delay(base: int, retryIndex: nat): int
    requires -MAX_INT64 - 1 <= base <= MAX_INT64
  {
    if base <= 0 then 0
    else
      var multiple := Pow2(Min(retryIndex, 62));
      if base > MAX_INT64 / multiple then MAX_INT64 else base * multiple
  }

  /** The guard is the overflow test of the product. */
  lemma GuardIsExact(base: int, multiple: int)
    requires base > 0 && multiple > 0
    ensures base > MAX_INT64 / multiple <==> base * multiple > MAX_INT64
  {
    var q := MAX_INT64 / multiple;
    assert MAX_INT64 == q * multiple + MAX_INT64 % multiple;
    if base > q {
      assert base * multiple >= (q + 1) * multiple == q * multiple + multiple;
    } else {
      assert base * multiple <= q * multiple;
    }
  }

  lemma {:induction false} Pow2Grows(n: nat, m: nat)
    requires n <= m
    ensures Pow2(n) <= Pow2(m)
  {
    if n < m {
      Pow2Grows(n, m - 1);
    }
  }

  lemma Pow2At62()
    ensures Pow2(62) == 0x4000_0000_0000_0000
  {
    assert Pow2(10) == 1024;
    Pow2Adds(10, 10);
    Pow2Adds(20, 20);
    Pow2Adds(40, 20);
    assert Pow2(62) == 4 * Pow2(60);
  }

  lemma {:induction false} Pow2Adds(n: nat, m: nat)
    ensures Pow2(n + m) == Pow2(n) * Pow2(m)
  {
    if m > 0 {
      Pow2Adds(n, m - 1);
      assert Pow2(n) * Pow2(m) == 2 * (Pow2(n) * Pow2(m - 1));
    }
  }

  /** Up to index 62 the delay is the saturated product. */
  lemma DelayBelowTheShiftCap(base: int, i: nat)
    requires 0 < base <= MAX_INT64 && i <= 62
    ensures Delay(base, i) == Min(base * Pow2(i), MAX_INT64)
  {
    GuardIsExact(base, Pow2(i));
  }

  lemma Doubling(base: int, i: nat)
    requires base >= 1 && i >= 62
    ensures base * Pow2(i) >= base * Pow2(62)
  {
    Pow2Grows(62, i);
  }

  /**
   The delay is base times two to the index, saturated at the largest duration,
   exactly when the base is not one nanosecond or the index is at most 62: past it
   a one-nanosecond base stays at the capped shift instead of saturating.
   */
  lemma DelayIsSaturatedProduct(base: int, i: nat)
    requires 0 < base <= MAX_INT64
    ensures Delay(base, i) == Min(base * Pow2(i), MAX_INT64) <==> base != 1 || i <= 62
  {
    if i <= 62 {
      DelayBelowTheShiftCap(base, i);
    } else {
      Pow2At62();
      DelayBelowTheShiftCap(base, 62);
      assert Delay(base, i) == Delay(base, 62);
      Pow2Grows(63, i);
      assert Pow2(63) == 2 * Pow2(62);
      if base == 1 {
        assert Min(base * Pow2(i), MAX_INT64) == MAX_INT64;
      } else {
        assert base * Pow2(62) >= 2 * Pow2(62);
        Doubling(base, i);
      }
    }
  }

  lemma DelayOf(base: int, i: nat)
    requires 0 < base <= MAX_INT64
    ensures Delay(base, i) == Min(base * Pow2(Min(i, 62)), MAX_INT64)
  {
    DelayBelowTheShiftCap(base, Min(i, 62));
  }

  lemma Scaled(base: int, p: int, q: int)
    requires base > 0 && 0 < p <= q
    ensures 0 < base * p <= base * q
  {
  }

  /** The delay is a duration, and a later retry never waits for less. */
  lemma DelayIsMonotone(base: int, i: nat, j: nat)
    requires -MAX_INT64 - 1 <= base <= MAX_INT64 && i <= j
    ensures 0 <= Delay(base, i) <= Delay(base, j) <= MAX_INT64
  {
    if base > 0 {
      hide Delay, Pow2;
      DelayOf(base, i);
      DelayOf(base, j);
      Pow2Grows(Min(i, 62), Min(j, 62));
      Scaled(base, Pow2(Min(i, 62)), Pow2(Min(j, 62)));
    }
  }
}

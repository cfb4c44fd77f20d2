/** Powers of two, right shifts and bit counts over unbounded naturals, as `math/bits` and
    the shift operators of the source use them. */
module Bits {

  function Pow2(k: nat): (r: nat)
    ensures 1 <= r
  {
    if k == 0 then 1 else 2 * Pow2(k - 1)
  }

  /** `v >> k`. */
  function Shift(v: nat, k: nat): nat
    decreases k
  {
    if k == 0 then v else Shift(v / 2, k - 1)
  }

  /** `v` with its low `k` bits cleared: the start of its block of size 2^k. */
  function Base(v: nat, k: nat): (b: nat)
    ensures b <= v
    decreases k
  {
    if k == 0 then v else 2 * Base(v / 2, k - 1)
  }

  lemma {:induction false} BaseBlock(v: nat, k: nat)
    ensures v < Base(v, k) + Pow2(k)
    decreases k
  {
    if k != 0 {
      BaseBlock(v / 2, k - 1);
    }
  }

  /** `v` is a multiple of 2^k. */
  predicate Aligned(v: nat, k: nat) {
    Base(v, k) == v
  }

  /** `bits.TrailingZeros32` of a nonzero value. */
  function TrailingZeros(v: nat): nat
    requires v != 0
  {
    if v % 2 == 1 then 0 else 1 + TrailingZeros(v / 2)
  }

  /** `bits.Len64`: one more than the base-two logarithm, 0 for 0. */
  function BitLength(v: nat): (n: nat)
    ensures v != 0 ==> 1 <= n && Pow2(n - 1) <= v
    ensures v < Pow2(n)
  {
    if v == 0 then 0 else 1 + BitLength(v / 2)
  }

  /** Values shift to the same number exactly when they lie in the same block. */
  lemma {:induction false} ShiftSame(v: nat, u: nat, k: nat)
    ensures Shift(v, k) == Shift(u, k) <==> Base(v, k) <= u < Base(v, k) + Pow2(k)
    decreases k
  {
    if k != 0 {
      ShiftSame(v / 2, u / 2, k - 1);
    }
  }

  lemma {:induction false} ShiftShift(v: nat, j: nat, k: nat)
    ensures Shift(v, j + k) == Shift(Shift(v, j), k)
    decreases j
  {
    if j != 0 {
      ShiftShift(v / 2, j - 1, k);
    }
  }

  /** Values that agree after a shift agree after every longer shift. */
  lemma ShiftCoarsens(v: nat, u: nat, j: nat, k: nat)
    requires j <= k
    requires Shift(v, j) == Shift(u, j)
    ensures Shift(v, k) == Shift(u, k)
  {
    ShiftShift(v, j, k - j);
    ShiftShift(u, j, k - j);
  }

  lemma {:induction false} Pow2Monotone(j: nat, k: nat)
    requires j <= k
    ensures Pow2(j) <= Pow2(k)
    ensures j < k ==> Pow2(j) < Pow2(k)
    decreases k
  {
    if j < k {
      Pow2Monotone(j, k - 1);
    }
  }

  lemma {:induction false} Pow2Sum(j: nat, k: nat)
    ensures Pow2(j + k) == Pow2(j) * Pow2(k)
    decreases j
  {
    if j != 0 {
      Pow2Sum(j - 1, k);
    }
  }

  /** Clearing bits twice clears nothing more. */
  lemma {:induction false} BaseAligned(v: nat, k: nat)
    ensures Aligned(Base(v, k), k)
    decreases k
  {
    if k != 0 {
      BaseAligned(v / 2, k - 1);
    }
  }

  /** A block never leaves an aligned space that its value is in. */
  lemma {:induction false} BaseInSpace(v: nat, k: nat, w: nat)
    requires k <= w && v < Pow2(w)
    ensures Base(v, k) + Pow2(k) <= Pow2(w)
    decreases k
  {
    if k != 0 {
      BaseInSpace(v / 2, k - 1, w - 1);
    }
  }

  /** The trailing zeros of a value are the largest power of two that divides it. */
  lemma {:induction false} AlignedIffTrailingZeros(v: nat, k: nat)
    requires v != 0
    ensures Aligned(v, k) <==> k <= TrailingZeros(v)
    decreases k
  {
    if k != 0 && v % 2 == 0 {
      AlignedIffTrailingZeros(v / 2, k - 1);
    }
  }

  lemma {:induction false} ZeroAligned(k: nat)
    ensures Aligned(0, k)
  {
    if k != 0 {
      ZeroAligned(k - 1);
    }
  }

  /** Adding one block to an aligned value keeps it aligned. */
  lemma {:induction false} AlignedStep(v: nat, k: nat)
    requires Aligned(v, k)
    ensures Aligned(v + Pow2(k), k)
    decreases k
  {
    if k != 0 {
      AlignedStep(v / 2, k - 1);
      assert (v + Pow2(k)) / 2 == v / 2 + Pow2(k - 1);
    }
  }

  /** Multiples of a power of two are multiples of every smaller one. */
  lemma {:induction false} AlignedRefines(v: nat, j: nat, k: nat)
    requires j <= k && Aligned(v, k)
    ensures Aligned(v, j)
    decreases j
  {
    if j != 0 {
      AlignedRefines(v / 2, j - 1, k - 1);
    }
  }

  lemma {:induction false} Pow2Reflects(j: nat, k: nat)
    requires Pow2(j) < Pow2(k)
    ensures j < k
    decreases j
  {
    if k <= j {
      Pow2Monotone(k, j);
    }
  }

  lemma {:induction false} AlignedAtLeast(v: nat, k: nat)
    requires Aligned(v, k) && v != 0
    ensures Pow2(k) <= v
    decreases k
  {
    if k != 0 {
      AlignedAtLeast(v / 2, k - 1);
    }
  }

  /** An odd multiple of 2^k becomes an even one when 2^k is added. */
  lemma {:induction false} AlignedUp(v: nat, k: nat)
    requires Aligned(v, k) && !Aligned(v, k + 1)
    ensures Aligned(v + Pow2(k), k + 1)
    decreases k
  {
    if k != 0 {
      AlignedUp(v / 2, k - 1);
      assert (v + Pow2(k)) / 2 == v / 2 + Pow2(k - 1);
    }
  }

  /** A difference of powers of two is a multiple of the smaller one. */
  lemma {:induction false} DifferenceAligned(m: nat, n: nat)
    requires m <= n
    ensures Pow2(m) <= Pow2(n) && Aligned(Pow2(n) - Pow2(m), m)
    decreases m
  {
    Pow2Monotone(m, n);
    if m != 0 {
      DifferenceAligned(m - 1, n - 1);
      assert (Pow2(n) - Pow2(m)) / 2 == Pow2(n - 1) - Pow2(m - 1);
    }
  }
}

/** Powers of two, alignment, and the fixed-width bit operations of 32-bit addresses. */
module Bits {

  function Pow2(n: nat): (r: nat)
    ensures r >= 1
  {
    if n == 0 then 1 else 2 * Pow2(n - 1)
  }

  lemma {:induction false} Pow2Monotone(a: nat, b: nat)
    requires a <= b
    ensures Pow2(a) <= Pow2(b)
    ensures a < b ==> 2 * Pow2(a) <= Pow2(b)
    decreases b
  {
    if a < b { Pow2Monotone(a, b - 1); }
  }

  lemma Pow2Of32()
    ensures Pow2(32) == 0x1_0000_0000
  {
    assert Pow2(8) == 256;
    assert Pow2(16) == 256 * Pow2(8);
    assert Pow2(24) == 256 * Pow2(16);
  }

  // -------------------------------------------------------------- alignment

  /** The low `k` bits of `x` are zero: `x` is a multiple of 2^k. */
  predicate Aligned(x: nat, k: nat) {
    k == 0 || (x % 2 == 0 && Aligned(x / 2, k - 1))
  }

  /** Clears the low `k` bits of `x`. */
  function AlignDown(x: nat, k: nat): (r: nat)
    ensures r <= x < r + Pow2(k) && Aligned(r, k)
  {
    if k == 0 then x else 2 * AlignDown(x / 2, k - 1)
  }

  lemma AlignedAny(x: nat)
    ensures Pow2(0) == 1 && Aligned(x, 0)
  {
  }

  lemma {:induction false} AlignedZero(k: nat)
    ensures Aligned(0, k)
  {
    if k > 0 { AlignedZero(k - 1); }
  }

  /** A multiple of 2^k is a multiple of every smaller power. */
  lemma {:induction false} AlignedWeaken(x: nat, j: nat, k: nat)
    requires Aligned(x, k) && j <= k
    ensures Aligned(x, j)
  {
    if j > 0 { AlignedWeaken(x / 2, j - 1, k - 1); }
  }

  lemma {:induction false} AlignedAdd(x: nat, y: nat, k: nat)
    requires Aligned(x, k) && Aligned(y, k)
    ensures Aligned(x + y, k)
    ensures x >= y ==> Aligned(x - y, k)
  {
    if k > 0 { AlignedAdd(x / 2, y / 2, k - 1); }
  }

  lemma {:induction false} AlignedPow2(k: nat, j: nat)
    requires j <= k
    ensures Aligned(Pow2(k), j)
  {
    if j > 0 { AlignedPow2(k - 1, j - 1); }
  }

  /** Distinct multiples of 2^k are at least 2^k apart. */
  lemma {:induction false} AlignedGap(x: nat, y: nat, k: nat)
    requires Aligned(x, k) && Aligned(y, k) && x < y
    ensures x + Pow2(k) <= y
  {
    if k > 0 { AlignedGap(x / 2, y / 2, k - 1); }
  }

  lemma AlignDownUnique(x: nat, r: nat, k: nat)
    requires Aligned(r, k) && r <= x < r + Pow2(k)
    ensures AlignDown(x, k) == r
  {
    var d := AlignDown(x, k);
    if d < r { AlignedGap(d, r, k); } else if r < d { AlignedGap(r, d, k); }
  }

  /** An odd multiple of 2^k becomes a multiple of 2^(k+1) when 2^k is added or removed. */
  lemma {:induction false} OddMultiple(x: nat, k: nat)
    requires Aligned(x, k) && !Aligned(x, k + 1)
    ensures Pow2(k) <= x
    ensures Aligned(x + Pow2(k), k + 1)
    ensures Aligned(x - Pow2(k), k + 1)
  {
    if k > 0 { OddMultiple(x / 2, k - 1); }
  }

  // --------------------------------------------- fixed-width bit operations

  /** Bitwise AND of two `w`-bit words. */
  function And(w: nat, x: nat, y: nat): nat {
    if w == 0 then 0
    else 2 * And(w - 1, x / 2, y / 2) + (if x % 2 == 1 && y % 2 == 1 then 1 else 0)
  }

  /** Bitwise OR of two `w`-bit words. */
  function Or(w: nat, x: nat, y: nat): nat {
    if w == 0 then 0
    else 2 * Or(w - 1, x / 2, y / 2) + (if x % 2 == 1 || y % 2 == 1 then 1 else 0)
  }

  /** Bitwise complement of a `w`-bit word. */
  function Not(w: nat, x: nat): nat {
    if w == 0 then 0 else 2 * Not(w - 1, x / 2) + (1 - x % 2)
  }

  /** Left shift of a `w`-bit word: each step doubles it and drops the carry out of bit `w`. */
  function Shl(w: nat, x: nat, n: nat): (r: nat)
    requires x < Pow2(w)
    ensures r < Pow2(w)
  {
    if n == 0 then x
    else
      var y := 2 * Shl(w, x, n - 1);
      if y >= Pow2(w) then y - Pow2(w) else y
  }

  /** Shifting the all-ones word left by `k` leaves exactly the bits from `k` upwards. */
  lemma {:induction false} ShiftedOnes(w: nat, k: nat)
    requires k <= w
    ensures Pow2(k) <= Pow2(w)
    ensures Shl(w, Pow2(w) - 1, k) == Pow2(w) - Pow2(k)
  {
    Pow2Monotone(k, w);
    if k > 0 { ShiftedOnes(w, k - 1); }
  }

  /** Halving the mask of the bits from `k` upwards moves every bit down by one. */
  lemma HalfMask(w: nat, k: nat)
    requires k <= w && w > 0
    ensures Pow2(k) <= Pow2(w)
    ensures var half := if k == 0 then 0 else k - 1;
      Pow2(w) - Pow2(k) == 2 * (Pow2(w - 1) - Pow2(half)) + (if k == 0 then 1 else 0)
  {
    Pow2Monotone(k, w);
  }

  /** AND with the mask of the bits from `k` upwards clears the low `k` bits. */
  lemma {:induction false} AndHighMask(w: nat, k: nat, x: nat)
    requires k <= w && x < Pow2(w)
    ensures Pow2(k) <= Pow2(w)
    ensures And(w, x, Pow2(w) - Pow2(k)) == AlignDown(x, k)
  {
    Pow2Monotone(k, w);
    if w > 0 {
      HalfMask(w, k);
      AndHighMask(w - 1, if k == 0 then 0 else k - 1, x / 2);
    }
  }

  /** The complement of that mask is the `k` low bits. */
  lemma {:induction false} NotHighMask(w: nat, k: nat)
    requires k <= w
    ensures Pow2(k) <= Pow2(w)
    ensures Not(w, Pow2(w) - Pow2(k)) == Pow2(k) - 1
  {
    Pow2Monotone(k, w);
    if w > 0 {
      HalfMask(w, k);
      NotHighMask(w - 1, if k == 0 then 0 else k - 1);
    }
  }

  /** OR-ing an aligned word with the `k` low bits sets all of them. */
  lemma {:induction false} OrLowBits(w: nat, k: nat, x: nat)
    requires k <= w && x < Pow2(w) && Aligned(x, k)
    ensures Or(w, x, Pow2(k) - 1) == x + Pow2(k) - 1
  {
    if k > 0 {
      assert (Pow2(k) - 1) / 2 == Pow2(k - 1) - 1;
      OrLowBits(w - 1, k - 1, x / 2);
    } else if w > 0 {
      OrLowBits(w - 1, 0, x / 2);
    }
  }

  // ------------------------------------------------------------- bit counts

  function PopCount(x: nat): nat {
    if x == 0 then 0 else x % 2 + PopCount(x / 2)
  }

  /** Among the `h` low bits, those set in `d` and those set in its complement add up to `h`. */
  lemma {:induction false} PopCountComplement(h: nat, d: nat)
    requires d < Pow2(h)
    ensures PopCount(d) + PopCount(Pow2(h) - 1 - d) == h
  {
    if h > 0 {
      assert (Pow2(h) - 1 - d) / 2 == Pow2(h - 1) - 1 - d / 2;
      PopCountComplement(h - 1, d / 2);
    }
  }

  /** A bit above all others counts once. */
  lemma {:induction false} PopCountHighBit(k: nat, x: nat)
    requires x < Pow2(k)
    ensures PopCount(x + Pow2(k)) == PopCount(x) + 1
  {
    if k > 0 {
      assert (x + Pow2(k)) / 2 == x / 2 + Pow2(k - 1);
      PopCountHighBit(k - 1, x / 2);
    }
  }

  /** A bit below all others counts once. */
  lemma {:induction false} PopCountLowBit(k: nat, x: nat)
    requires Aligned(x, k + 1)
    ensures PopCount(x + Pow2(k)) == PopCount(x) + 1
  {
    if k > 0 {
      assert (x + Pow2(k)) / 2 == x / 2 + Pow2(k - 1);
      PopCountLowBit(k - 1, x / 2);
    }
  }
}

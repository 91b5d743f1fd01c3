/** Bitwise operations on unbounded natural numbers, as Python integers have them. */
module Bits {

  function Pow2(n: nat): (r: nat)
    ensures r >= 1
  {
    if n == 0 then 1 else 2 * Pow2(n - 1)
  }

  function Or(a: nat, b: nat): nat {
    if a == 0 then b
    else if b == 0 then a
    else (if a % 2 == 1 || b % 2 == 1 then 1 else 0) + 2 * Or(a / 2, b / 2)
  }

  function And(a: nat, b: nat): nat {
    if a == 0 || b == 0 then 0
    else (if a % 2 == 1 && b % 2 == 1 then 1 else 0) + 2 * And(a / 2, b / 2)
  }

  function Xor(a: nat, b: nat): nat {
    if a == 0 then b
    else if b == 0 then a
    else (if a % 2 != b % 2 then 1 else 0) + 2 * Xor(a / 2, b / 2)
  }

  function ShiftRight(a: nat, n: nat): nat {
    if n == 0 then a else ShiftRight(a / 2, n - 1)
  }

  /** Bit s of a is set. */
  predicate Bit(a: nat, s: nat) {
    if s == 0 then a % 2 == 1 else Bit(a / 2, s - 1)
  }

  /** The s low bits of a are clear. */
  predicate Aligned(a: nat, s: nat) {
    s == 0 || (a % 2 == 0 && Aligned(a / 2, s - 1))
  }

  lemma DoubleProduct(q: nat, m: nat)
    ensures q * (2 * m) == 2 * (q * m)
  {
  }

  /** Alignment is being a multiple of the power of two. */
  lemma {:induction false} AlignedIsMultiple(a: nat, s: nat)
    ensures Aligned(a, s) <==> a == ShiftRight(a, s) * Pow2(s)
  {
    if s > 0 {
      AlignedIsMultiple(a / 2, s - 1);
      DoubleProduct(ShiftRight(a, s), Pow2(s - 1));
    }
  }

  lemma {:induction false} Pow2Monotone(i: nat, j: nat)
    requires i < j
    ensures 2 * Pow2(i) <= Pow2(j)
  {
    if i + 1 < j {
      Pow2Monotone(i, j - 1);
    }
  }

  /** `a | (1 << s) == a` tests bit s. */
  lemma {:induction false} OrTestsBit(a: nat, s: nat)
    ensures (Or(a, Pow2(s)) == a) == Bit(a, s)
  {
    if s > 0 {
      OrTestsBit(a / 2, s - 1);
    } else if a > 0 {
      assert Or(a / 2, 0) == a / 2;
    }
  }

  /** Setting the low bits of an aligned number adds them. */
  lemma {:induction false} OrFillsLowBits(a: nat, k: nat)
    requires Aligned(a, k)
    ensures Or(a, Pow2(k) - 1) == a + Pow2(k) - 1
  {
    if k > 0 {
      OrFillsLowBits(a / 2, k - 1);
      assert (Pow2(k) - 1) / 2 == Pow2(k - 1) - 1;
    }
  }

  /** Clearing the low bits of an all-ones word leaves a contiguous netmask. */
  lemma {:induction false} XorClearsLowBits(n: nat, k: nat)
    requires k <= n
    ensures Xor(Pow2(n) - 1, Pow2(k) - 1) == Pow2(n) - Pow2(k)
  {
    if k > 0 {
      XorClearsLowBits(n - 1, k - 1);
      assert (Pow2(n) - 1) / 2 == Pow2(n - 1) - 1;
      assert (Pow2(k) - 1) / 2 == Pow2(k - 1) - 1;
    }
  }

  lemma AndEven(a: nat, m: nat)
    ensures And(a, 2 * m) == 2 * And(a / 2, m)
  {
    assert (2 * m) / 2 == m && (2 * m) % 2 == 0;
  }

  /** A netmask route to an aligned base matches exactly the 2^k addresses from the base on. */
  lemma {:induction false} MaskMatches(x: nat, base: nat, n: nat, k: nat)
    requires k <= n && x < Pow2(n) && Aligned(base, k)
    ensures Pow2(k) <= Pow2(n)
    ensures And(x, Pow2(n) - Pow2(k)) == base <==> base <= x < base + Pow2(k)
  {
    if k == 0 {
      AndOnes(x, n);
    } else {
      MaskMatches(x / 2, base / 2, n - 1, k - 1);
      AndEven(x, Pow2(n - 1) - Pow2(k - 1));
    }
  }

  lemma {:induction false} AndOnes(a: nat, n: nat)
    requires a < Pow2(n)
    ensures And(a, Pow2(n) - 1) == a
  {
    if a > 0 {
      AndOnes(a / 2, n - 1);
      assert (Pow2(n) - 1) / 2 == Pow2(n - 1) - 1;
    }
  }

  /** Shifting an all-ones word right leaves a shorter all-ones word. */
  lemma {:induction false} ShiftOnes(n: nat, m: nat)
    ensures ShiftRight(Pow2(n + m) - 1, m) == Pow2(n) - 1
  {
    if m > 0 {
      assert (Pow2(n + m) - 1) / 2 == Pow2(n + m - 1) - 1;
      ShiftOnes(n, m - 1);
    }
  }

  /** Alignment grows by one bit exactly when that bit is clear. */
  lemma {:induction false} AlignmentGrows(a: nat, s: nat)
    requires Aligned(a, s)
    ensures Aligned(a, s + 1) == !Bit(a, s)
  {
    if s > 0 {
      AlignmentGrows(a / 2, s - 1);
    }
  }

  lemma {:induction false} AlignmentShrinks(a: nat, i: nat, j: nat)
    requires i <= j && Aligned(a, j)
    ensures Aligned(a, i)
    ensures i < j ==> !Bit(a, i)
  {
    if i > 0 {
      AlignmentShrinks(a / 2, i - 1, j - 1);
    }
  }

  /** Stepping by the alignment keeps it; a set bit carries, a clear bit becomes set. */
  lemma {:induction false} AlignmentSteps(a: nat, s: nat)
    requires Aligned(a, s)
    ensures Aligned(a + Pow2(s), s)
    ensures Bit(a + Pow2(s), s) == !Bit(a, s)
  {
    if s > 0 {
      assert (a + Pow2(s)) / 2 == a / 2 + Pow2(s - 1);
      AlignmentSteps(a / 2, s - 1);
    }
  }

  lemma {:induction false} AlignmentStepsBack(a: nat, s: nat)
    requires Aligned(a, s) && Bit(a, s)
    ensures a >= Pow2(s) && Aligned(a - Pow2(s), s + 1)
  {
    if s > 0 {
      AlignmentStepsBack(a / 2, s - 1);
      assert (a - Pow2(s)) / 2 == a / 2 - Pow2(s - 1);
    }
  }

  /** Two numbers aligned alike are equal or a whole block apart. */
  lemma {:induction false} AlignedGap(a: nat, b: nat, s: nat)
    requires Aligned(a, s) && Aligned(b, s) && a < b
    ensures a + Pow2(s) <= b
  {
    if s > 0 {
      AlignedGap(a / 2, b / 2, s - 1);
    }
  }

  lemma {:induction false} AlignedZero(s: nat)
    ensures Aligned(0, s)
  {
    if s > 0 {
      AlignedZero(s - 1);
    }
  }
}

/** Bit operations on natural numbers, and what they are on blocks of low bits. Shifting right by
    n is division by two to the n. */
module Bits {
  import opened Powers

  function And(x: nat, y: nat): (r: nat) {
    if x == 0 || y == 0 then 0 else 2 * And(x / 2, y / 2) + (if x % 2 == 1 && y % 2 == 1 then 1 else 0)
  }

  function Or(x: nat, y: nat): (r: nat)
    decreases x + y
  {
    if x == 0 && y == 0 then 0 else 2 * Or(x / 2, y / 2) + (if x % 2 == 1 || y % 2 == 1 then 1 else 0)
  }

  function Xor(x: nat, y: nat): (r: nat)
    decreases x + y
  {
    if x == 0 && y == 0 then 0 else 2 * Xor(x / 2, y / 2) + (if x % 2 != y % 2 then 1 else 0)
  }

  lemma HalvesThenBlock(x: nat, k: nat)
    requires 0 < k
    ensures Pow2(k) == 2 * Pow2(k - 1) && 0 < Pow2(k - 1) && x / Pow2(k) == x / 2 / Pow2(k - 1)
  {
    Pow2Positive(k - 1);
    QuotientOfQuotient(x, 2, Pow2(k - 1));
  }

  /** Masking with ones from bit k up to bit n clears the low k bits. */
  lemma {:induction false} AndHigh(x: nat, n: nat, k: nat)
    requires x < Pow2(n) && k <= n
    ensures 0 < Pow2(k) <= Pow2(n) && And(x, Pow2(n) - Pow2(k)) == x / Pow2(k) * Pow2(k)
    decreases n
  {
    Pow2Positive(k);
    Pow2Grows(k, n);
    if k == 0 {
      AndOnes(x, n);
    } else {
      HalvesThenBlock(x, k);
      AndHigh(x / 2, n - 1, k - 1);
      Doubled(x / 2 / Pow2(k - 1), Pow2(k - 1));
      AndEven(x, Pow2(n - 1) - Pow2(k - 1));
    }
  }

  lemma AndEven(x: nat, y: nat)
    ensures And(x, 2 * y) == 2 * And(x / 2, y)
  {
    assert 2 * y / 2 == y;
  }

  lemma {:induction false} AndOnes(x: nat, n: nat)
    requires x < Pow2(n)
    ensures 0 < Pow2(n) && And(x, Pow2(n) - 1) == x
  {
    Pow2Positive(n);
    if n != 0 && x != 0 {
      AndOnes(x / 2, n - 1);
      assert (Pow2(n) - 1) / 2 == Pow2(n - 1) - 1 && (Pow2(n) - 1) % 2 == 1;
    }
  }

  /** Setting low bits of a number without them is addition. */
  lemma {:induction false} OrLow(h: nat, l: nat, k: nat)
    requires l < Pow2(k)
    ensures 0 < Pow2(k) && Or(h * Pow2(k), l) == h * Pow2(k) + l
  {
    Pow2Positive(k);
    if k == 0 {
      OrZero(h);
    } else {
      OrLow(h, l / 2, k - 1);
      Doubled(h, Pow2(k - 1));
      var x := h * Pow2(k);
      assert x == 2 * (h * Pow2(k - 1));
      assert x / 2 == h * Pow2(k - 1) && x % 2 == 0;
    }
  }

  lemma Doubled(h: int, d: int)
    ensures h * (2 * d) == 2 * (h * d)
  {
  }

  lemma {:induction false} OrZero(x: nat)
    ensures Or(x, 0) == x
  {
    if x != 0 { OrZero(x / 2); }
  }

  /** Two numbers differ in no bit from k on exactly when they lie in the same block. */
  lemma {:induction false} XorHigh(x: nat, y: nat, k: nat)
    ensures 0 < Pow2(k) && (Xor(x, y) / Pow2(k) == 0 <==> x / Pow2(k) == y / Pow2(k))
    decreases k
  {
    Pow2Positive(k);
    if k == 0 {
      XorZero(x, y);
    } else {
      HalvesThenBlock(x, k);
      HalvesThenBlock(y, k);
      HalvesThenBlock(Xor(x, y), k);
      XorHigh(x / 2, y / 2, k - 1);
      assert Xor(x, y) / 2 == Xor(x / 2, y / 2);
    }
  }

  lemma {:induction false} XorZero(x: nat, y: nat)
    ensures Xor(x, y) == 0 <==> x == y
    decreases x + y
  {
    if x != 0 || y != 0 { XorZero(x / 2, y / 2); }
  }
}

/** Powers of two, and quotients as blocks of numbers. */
module Powers {

  function Pow2(n: nat): int {
    if n == 0 then 1 else 2 * Pow2(n - 1)
  }

  lemma {:induction false} Pow2Positive(n: nat)
    ensures 0 < Pow2(n)
  {
    if n != 0 { Pow2Positive(n - 1); }
  }

  lemma {:induction false} Pow2Grows(a: nat, b: nat)
    requires a <= b
    ensures Pow2(a) <= Pow2(b)
  {
    if a < b {
      Pow2Grows(a, b - 1);
      Pow2Positive(b - 1);
    }
  }

  lemma {:induction false} Pow2Sum(m: nat, n: nat)
    ensures Pow2(m + n) == Pow2(m) * Pow2(n)
  {
    if m != 0 {
      Pow2Sum(m - 1, n);
      assert 2 * (Pow2(m - 1) * Pow2(n)) == (2 * Pow2(m - 1)) * Pow2(n);
    }
  }

  // ----- quotients -----

  lemma QuotientAtMost(q: int, r: int, d: int)
    requires 0 < d && q * d < (r + 1) * d
    ensures q <= r
  {
  }

  /** A quotient names exactly one block of `d` numbers. */
  lemma QuotientIsBlock(x: int, d: int, q: int)
    requires 0 < d
    ensures x / d == q <==> q * d <= x < (q + 1) * d
  {
    assert x == x / d * d + x % d;
    if q * d <= x < (q + 1) * d {
      assert (x / d + 1) * d == x / d * d + d;
      QuotientAtMost(q, x / d, d);
      QuotientAtMost(x / d, q, d);
    }
    if x / d == q { assert (q + 1) * d == q * d + d; }
  }

  lemma BlockIsNat(x: int, d: int)
    requires 0 <= x && 0 < d
    ensures 0 <= x / d * d
  {
    QuotientAtMost(0, x / d, d);
    Scale(0, x / d, d);
  }

  lemma Scale(x: int, y: int, d: int)
    requires x <= y && 0 < d
    ensures x * d <= y * d
  {
  }

  lemma Regroup(q: int, k: int, d: int)
    ensures q * k * d == q * (d * k)
  {
  }

  /** Dividing twice is dividing by the product. */
  lemma QuotientOfQuotient(x: int, d: int, k: int)
    requires 0 < d && 0 < k
    ensures 0 < d * k && x / (d * k) == x / d / k
  {
    var q := x / d / k;
    QuotientIsBlock(x / d, k, q);
    QuotientIsBlock(x, d, x / d);
    Scale(q * k, x / d, d);
    Scale(x / d + 1, (q + 1) * k, d);
    Regroup(q, k, d);
    Regroup(q + 1, k, d);
    QuotientIsBlock(x, d * k, q);
  }
}

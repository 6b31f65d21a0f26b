/** Congruences and inverses modulo a prime. */
module Modular {

  predicate Congruent(a: int, b: int, n: int)
    requires 0 < n
  {
    (a - b) % n == 0
  }

  lemma MultipleIsZero(t: int, n: int)
    requires 0 < n
    ensures (t * n) % n == 0
  {
    QuotientUnique(t * n, n, t, 0);
  }

  lemma QuotientUnique(x: int, n: int, q: int, r: int)
    requires 0 < n && x == q * n + r && 0 <= r < n
    ensures x / n == q && x % n == r
  {
    assert x == x / n * n + x % n;
    var e := x / n - q;
    assert e * n == r - x % n by { assert e * n == x / n * n - q * n; }
    assert e >= 1 ==> e * n >= n;
    assert e <= -1 ==> e * n <= -n;
    assert e == 0;
  }

  /** A congruence is a difference by a multiple. */
  lemma FromMultiple(a: int, b: int, t: int, n: int)
    requires 0 < n && a - b == t * n
    ensures Congruent(a, b, n)
  {
    MultipleIsZero(t, n);
  }

  lemma ToMultiple(a: int, b: int, n: int) returns (t: int)
    requires 0 < n && Congruent(a, b, n)
    ensures a - b == t * n
  {
    t := (a - b) / n;
    assert a - b == t * n + (a - b) % n;
  }

  lemma ReducedIsCongruent(a: int, n: int)
    requires 0 < n
    ensures Congruent(a, a % n, n) && Congruent(a % n, a, n)
  {
    assert a == a / n * n + a % n;
    FromMultiple(a, a % n, a / n, n);
    assert a % n - a == (-(a / n)) * n;
    FromMultiple(a % n, a, -(a / n), n);
  }

  lemma Transitive(a: int, b: int, c: int, n: int)
    requires 0 < n && Congruent(a, b, n) && Congruent(b, c, n)
    ensures Congruent(a, c, n)
  {
    var s := ToMultiple(a, b, n);
    var t := ToMultiple(b, c, n);
    assert a - c == (s + t) * n;
    FromMultiple(a, c, s + t, n);
  }

  lemma Symmetric(a: int, b: int, n: int)
    requires 0 < n && Congruent(a, b, n)
    ensures Congruent(b, a, n)
  {
    var t := ToMultiple(a, b, n);
    assert b - a == (-t) * n;
    FromMultiple(b, a, -t, n);
  }

  lemma TimesCongruent(a: int, b: int, c: int, n: int)
    requires 0 < n && Congruent(a, b, n)
    ensures Congruent(a * c, b * c, n) && Congruent(c * a, c * b, n)
  {
    var t := ToMultiple(a, b, n);
    assert a * c - b * c == (t * c) * n by { assert (a - b) * c == t * n * c; }
    FromMultiple(a * c, b * c, t * c, n);
    assert c * a == a * c && c * b == b * c;
  }

  lemma PlusCongruent(a: int, b: int, c: int, d: int, n: int)
    requires 0 < n && Congruent(a, b, n) && Congruent(c, d, n)
    ensures Congruent(a + c, b + d, n)
  {
    var s := ToMultiple(a, b, n);
    var t := ToMultiple(c, d, n);
    assert a + c - (b + d) == (s + t) * n;
    FromMultiple(a + c, b + d, s + t, n);
  }

  // ----- inverses -----

  predicate Divides(d: int, x: int)
    requires 0 < d
  {
    x % d == 0
  }

  ghost predicate Prime(n: int) {
    1 < n && forall d :: 1 < d < n ==> !Divides(d, n)
  }

  lemma DivMod(a: nat, b: nat)
    requires 0 < b
    ensures a == a / b * b + a % b && 0 <= a % b < b
  {
  }

  lemma Backwards(a: int, b: int, q: int, r: int, x: int, y: int)
    requires a == q * b + r
    ensures b * x + r * y == a * y + b * (x - q * y)
  {
    calc {
      b * x + r * y;
      b * x + (a - q * b) * y;
      b * x + a * y - q * b * y;
      { assert q * b * y == b * (q * y); }
      a * y + b * (x - q * y);
    }
  }

  /** Extended Euclid: a common divisor as a combination of both numbers. */
  function Euclid(a: nat, b: nat): (r: (int, int, int))
    requires 0 < a || 0 < b
    ensures 0 < r.0 && r.0 == a * r.1 + b * r.2
    decreases b
  {
    if b == 0 then (a, 1, 0)
    else
      DivMod(a, b);
      var t := Euclid(b, a % b);
      Backwards(a, b, a / b, a % b, t.1, t.2);
      (t.0, t.2, t.1 - a / b * t.2)
  }

  lemma CombinationDivides(d: int, x: int, y: int, q: int)
    requires 0 < d && Divides(d, x) && Divides(d, y)
    ensures Divides(d, q * x + y)
  {
    var s := ToMultiple(x, 0, d);
    var t := ToMultiple(y, 0, d);
    assert q * x + y - 0 == (q * s + t) * d by { assert q * x == q * s * d; }
    FromMultiple(q * x + y, 0, q * s + t, d);
  }

  lemma {:induction false} EuclidDivides(a: nat, b: nat)
    requires 0 < a || 0 < b
    ensures Divides(Euclid(a, b).0, a) && Divides(Euclid(a, b).0, b)
    decreases b
  {
    if b == 0 {
      MultipleIsZero(1, a);
    } else {
      EuclidDivides(b, a % b);
      CombinationDivides(Euclid(a, b).0, b, a % b, a / b);
      assert a == a / b * b + a % b;
    }
  }

  function ModInverse(k: int, n: int): nat
    requires 0 < k < n
  {
    Euclid(k, n).1 % n
  }

  /** Modulo a prime, every number from 1 to n-1 has its inverse. */
  lemma InverseInverts(k: int, n: int)
    requires Prime(n) && 0 < k < n
    ensures Congruent(k * ModInverse(k, n), 1, n) && ModInverse(k, n) < n
  {
    var e := Euclid(k, n);
    EuclidDivides(k, n);
    DivisorBounded(e.0, k);
    assert e.0 == 1;
    assert k * e.1 - 1 == (-e.2) * n by { assert n * e.2 == e.2 * n; }
    FromMultiple(k * e.1, 1, -e.2, n);
    ReducedIsCongruent(e.1, n);
    TimesCongruent(e.1 % n, e.1, k, n);
    Transitive(k * (e.1 % n), k * e.1, 1, n);
  }

  lemma DivisorBounded(d: int, x: int)
    requires 0 < d && 0 < x && Divides(d, x)
    ensures d <= x
  {
    var t := ToMultiple(x, 0, d);
    assert t <= 0 ==> t * d <= 0;
    assert t >= 1;
    assert t * d >= d;
  }
}

/** Deterministic ECDSA after RFC 6979, over any group of prime order, with the keyed hash as an
    arbitrary function to 32 octets. */
module Signer {
  import opened Outcomes
  import opened Powers
  import opened Modular

  type Octet = b: int | 0 <= b < 256
  type Block = s: seq<Octet> | |s| == 32 witness seq(32, _ => 0)
  type Keyed = (seq<Octet>, seq<Octet>) -> Block

  // ----- the group -----

  datatype Curve<!P> = Curve(order: int, base: P, zero: P, add: (P, P) -> P, x: P -> int)

  function Multiple<P>(c: Curve<P>, k: nat, p: P): P {
    if k == 0 then c.zero else c.add(Multiple(c, k - 1, p), p)
  }

  predicate Unit<P(==)>(c: Curve<P>, p: P) { c.add(p, c.zero) == p && c.add(c.zero, p) == p }

  predicate Associates<P(==)>(c: Curve<P>, p: P, q: P, r: P) { c.add(c.add(p, q), r) == c.add(p, c.add(q, r)) }

  /** A group in which the base point has prime order; its x-coordinates are arbitrary. */
  ghost predicate Lawful<P(!new)>(c: Curve<P>) {
    && Prime(c.order) && c.base != c.zero && Multiple(c, c.order, c.base) == c.zero
    && (forall p :: Unit(c, p)) && (forall p, q, r :: Associates(c, p, q, r))
  }

  lemma {:induction false} MultipleOfSum<P(!new)>(c: Curve<P>, j: nat, k: nat, p: P)
    requires Lawful(c)
    ensures Multiple(c, j + k, p) == c.add(Multiple(c, j, p), Multiple(c, k, p))
  {
    if k == 0 {
      assert Unit(c, Multiple(c, j, p));
    } else {
      MultipleOfSum(c, j, k - 1, p);
      assert Associates(c, Multiple(c, j, p), Multiple(c, k - 1, p), p);
    }
  }

  lemma {:induction false} MultipleOfProduct<P(!new)>(c: Curve<P>, j: nat, k: nat, p: P)
    requires Lawful(c)
    ensures Multiple(c, j * k, p) == Multiple(c, j, Multiple(c, k, p))
  {
    if j != 0 {
      MultipleOfProduct(c, j - 1, k, p);
      assert j * k == (j - 1) * k + k;
      MultipleOfSum(c, (j - 1) * k, k, p);
    }
  }

  lemma {:induction false} MultipleOfZero<P(!new)>(c: Curve<P>, k: nat)
    requires Lawful(c)
    ensures Multiple(c, k, c.zero) == c.zero
  {
    if k != 0 {
      MultipleOfZero(c, k - 1);
      assert Unit(c, c.zero);
    }
  }

  lemma MultipleReduces<P(!new)>(c: Curve<P>, k: nat)
    requires Lawful(c)
    ensures Multiple(c, k, c.base) == Multiple(c, k % c.order, c.base)
  {
    var n := c.order;
    assert k == k / n * n + k % n;
    MultipleOfSum(c, k / n * n, k % n, c.base);
    MultipleOfProduct(c, k / n, n, c.base);
    MultipleOfZero(c, k / n);
    assert Unit(c, Multiple(c, k % n, c.base));
  }

  lemma CongruentReduce(j: int, k: int, n: int)
    requires 0 < n && Congruent(j, k, n)
    ensures j % n == k % n
  {
    var t := ToMultiple(j, k, n);
    assert j == (k / n + t) * n + k % n by { assert k == k / n * n + k % n; }
    QuotientUnique(j, n, k / n + t, k % n);
  }

  /** Congruent multiples of the base point coincide. */
  lemma CongruentMultiples<P(!new)>(c: Curve<P>, j: nat, k: nat)
    requires Lawful(c) && Congruent(j, k, c.order)
    ensures Multiple(c, j, c.base) == Multiple(c, k, c.base)
  {
    CongruentReduce(j, k, c.order);
    MultipleReduces(c, j);
    MultipleReduces(c, k);
  }

  lemma ProperMultipleIsNotZero<P(!new)>(c: Curve<P>, k: nat)
    requires Lawful(c) && 0 < k < c.order
    ensures Multiple(c, k, c.base) != c.zero
  {
    var i := ModInverse(k, c.order);
    InverseInverts(k, c.order);
    assert k * i == i * k;
    CongruentMultiples(c, i * k, 1);
    MultipleOfProduct(c, i, k, c.base);
    MultipleOfZero(c, i);
    assert Multiple(c, 1, c.base) == c.add(Multiple(c, 0, c.base), c.base);
    assert Unit(c, c.base);
  }

  // ----- verification -----

  /** The ECDSA verification equation for the digest value z, public point q and signature (r, s). */
  predicate Verifies<P(==)>(c: Curve<P>, q: P, z: nat, r: int, s: int)
    requires 1 < c.order
  {
    && 1 <= r < c.order && 1 <= s < c.order
    && var w := ModInverse(s, c.order);
       var point := c.add(Multiple(c, z * w % c.order, c.base), Multiple(c, r * w % c.order, q));
       point != c.zero && c.x(point) % c.order == r
  }

  /** The signature a nonce k gives, when it gives one. */
  function SignatureFrom<P>(c: Curve<P>, d: nat, z: nat, k: nat): Outcome<(int, int)>
    requires 1 < c.order
  {
    if !(0 < k < c.order) then Fail
    else
      var r := c.x(Multiple(c, k, c.base)) % c.order;
      if r == 0 then Fail
      else
        var s := (r * d + z) * ModInverse(k, c.order) % c.order;
        if s == 0 then Fail else Ok((r, s))
  }

  /** From s = m / k: s times k is congruent to m. */
  lemma TimesNonce(n: int, m: nat, i: nat, k: nat, s: nat)
    requires 0 < n && s == m * i % n && Congruent(k * i, 1, n)
    ensures Congruent(s * k, m, n)
  {
    ReducedIsCongruent(m * i, n);
    TimesCongruent(s, m * i, k, n);
    TimesCongruent(k * i, 1, m, n);
    Reorder(m, i, k);
    Transitive(s * k, m * (k * i), m * 1, n);
  }

  /** With w the inverse of s: w times m is congruent to k. */
  lemma TimesInverse(n: int, m: nat, k: nat, s: nat, w: nat)
    requires 0 < n && Congruent(s * k, m, n) && Congruent(s * w, 1, n)
    ensures Congruent(w * m, k, n)
  {
    TimesCongruent(s * k, m, w, n);
    Symmetric(w * (s * k), w * m, n);
    TimesCongruent(s * w, 1, k, n);
    Reorder(w, s, k);
    Reorder(s, w, k);
    Transitive(w * m, s * w * k, 1 * k, n);
  }

  lemma Reorder(a: int, b: int, c: int)
    ensures a * b * c == a * (c * b) && a * b * c == b * (a * c) && a * (b * c) == b * a * c
  {
  }

  /** The scalar that verification applies to the base point is congruent to the nonce. */
  lemma ScalarIsNonce(n: int, d: nat, z: nat, r: nat, k: nat, s: nat, w: nat)
    requires Prime(n) && 0 < k < n && 0 < s < n && s == (r * d + z) * ModInverse(k, n) % n && Congruent(s * w, 1, n)
    ensures Congruent(z * w % n + r * w % n * d, k, n)
  {
    InverseInverts(k, n);
    TimesNonce(n, r * d + z, ModInverse(k, n), k, s);
    TimesInverse(n, r * d + z, k, s, w);
    SplitScalar(n, d, z, r, w, k);
  }

  lemma SplitScalar(n: int, d: nat, z: nat, r: nat, w: nat, k: nat)
    requires 0 < n && Congruent(w * (r * d + z), k, n)
    ensures Congruent(z * w % n + r * w % n * d, k, n)
  {
    ReducedIsCongruent(z * w, n);
    ReducedIsCongruent(r * w, n);
    TimesCongruent(r * w % n, r * w, d, n);
    PlusCongruent(z * w % n, z * w, r * w % n * d, r * w * d, n);
    assert z * w + r * w * d == w * (r * d + z);
    Transitive(z * w % n + r * w % n * d, w * (r * d + z), k, n);
  }

  /** Whatever nonce was used, a signature that comes out is in range and verifies. */
  lemma SignaturesVerify<P(!new)>(c: Curve<P>, d: nat, z: nat, k: nat)
    requires Lawful(c) && SignatureFrom(c, d, z, k).Ok?
    ensures var sig := SignatureFrom(c, d, z, k).value;
            Verifies(c, Multiple(c, d, c.base), z, sig.0, sig.1)
  {
    var n := c.order;
    var sig := SignatureFrom(c, d, z, k).value;
    var r, s := sig.0, sig.1;
    InverseInverts(s, n);
    var w := ModInverse(s, n);
    var u, v := z * w % n, r * w % n;
    ScalarIsNonce(n, d, z, r, k, s, w);
    MultipleOfProduct(c, v, d, c.base);
    MultipleOfSum(c, u, v * d, c.base);
    CongruentMultiples(c, u + v * d, k);
    ProperMultipleIsNotZero(c, k);
  }

  // ----- octets -----

  function Number(s: seq<Octet>): (n: nat) {
    if s == [] then 0 else Number(s[..|s| - 1]) * 256 + s[|s| - 1]
  }

  /** Fixed-width big-endian octets; the value must fit. */
  function Octets(value: nat, width: nat): (s: seq<Octet>)
    requires value < Pow2(8 * width)
    ensures |s| == width && Number(s) == value
  {
    if width == 0 then []
    else
      assert value / 256 < Pow2(8 * (width - 1)) by { Narrower(value, width); }
      var high := Octets(value / 256, width - 1);
      assert (high + [value % 256])[..width - 1] == high;
      high + [value % 256]
  }

  lemma Narrower(value: nat, width: nat)
    requires 0 < width && value < Pow2(8 * width)
    ensures value / 256 < Pow2(8 * (width - 1))
  {
    Pow2Sum(8, 8 * (width - 1));
    assert Pow2(8) == 256 by { assert Pow2(8) == 2 * Pow2(7) && Pow2(7) == 2 * Pow2(6) && Pow2(6) == 2 * Pow2(5)
        && Pow2(5) == 2 * Pow2(4); }
  }

  /** The number of bits of a positive value. */
  function BitLength(n: nat): (b: nat)
    ensures n < Pow2(b)
  {
    if n == 0 then 0 else BitLength(n / 2) + 1
  }

  function Width(order: nat): nat { (BitLength(order) + 7) / 8 }

  /** Values below the order fit the octet width, so writing them out never fails. */
  lemma BelowOrderFits(value: nat, order: nat)
    requires value < order
    ensures value < Pow2(8 * Width(order))
  {
    Pow2Grows(BitLength(order), 8 * Width(order));
  }

  lemma QuotientIsNat(x: nat, d: int)
    requires 0 < d
    ensures 0 <= x / d
  {
  }

  function ShiftRight(x: nat, bits: int): nat {
    if bits <= 0 then x else Pow2Positive(bits); QuotientIsNat(x, Pow2(bits)); x / Pow2(bits)
  }

  // ----- keys -----

  /** Every seed gives a private key from 1 to n-1 and a public point other than zero. */
  method DeriveKey<P(!new)>(c: Curve<P>, seed: seq<Octet>) returns (d: nat, q: P)
    requires Lawful(c)
    ensures 1 <= d <= c.order - 1 && q == Multiple(c, d, c.base) && q != c.zero
    ensures Congruent(d - 1, Number(seed), c.order - 1)
  {
    d := Number(seed);
    d := d % (c.order - 1);
    ReducedIsCongruent(Number(seed), c.order - 1);
    d := d + 1;
    q := Multiple(c, d, c.base);
    ProperMultipleIsNotZero(c, d);
  }

  // ----- the nonce stream of section 3.2 of RFC 6979 -----

  datatype Drbg = Drbg(k: seq<Octet>, v: seq<Octet>)

  function Seeded(h: Keyed, seed: seq<Octet>): Drbg {
    var v0 := seq(32, _ => 1);
    var k1 := h(seq(32, _ => 0), v0 + [0] + seed);
    var v1 := h(k1, v0);
    var k2 := h(k1, v1 + [1] + seed);
    Drbg(k2, h(k2, v1))
  }

  /** Enough output blocks for `width` octets, and the state after them. */
  function Fill(h: Keyed, g: Drbg, have: seq<Octet>, width: nat): (seq<Octet>, Drbg)
    decreases width - |have|
  {
    if |have| >= width then (have, g)
    else
      var v := h(g.k, g.v);
      Fill(h, Drbg(g.k, v), have + v, width)
  }

  lemma {:induction false} FillIsLongEnough(h: Keyed, g: Drbg, have: seq<Octet>, width: nat)
    ensures |Fill(h, g, have, width).0| >= width
    decreases width - |have|
  {
    if |have| < width { FillIsLongEnough(h, Drbg(g.k, h(g.k, g.v)), have + h(g.k, g.v), width); }
  }

  /** The candidate a filled buffer holds: its leading octets, cut to the order's bit length. */
  function CandidateOf(buffer: seq<Octet>, order: nat): nat
    requires |buffer| >= Width(order)
  {
    ShiftRight(Number(buffer[..Width(order)]), Width(order) * 8 - BitLength(order))
  }

  function Rejected(h: Keyed, g: Drbg): Drbg {
    var k := h(g.k, g.v + [0]);
    Drbg(k, h(k, g.v))
  }

  /** One draw: the candidate, and the state for the next draw. */
  function DrawOne(h: Keyed, g: Drbg, order: nat): (nat, Drbg) {
    FillIsLongEnough(h, g, [], Width(order));
    var filled := Fill(h, g, [], Width(order));
    (CandidateOf(filled.0, order), Rejected(h, filled.1))
  }

  /** The state from which the i-th candidate is drawn. */
  function DrawFrom(h: Keyed, seed: seq<Octet>, order: nat, i: nat): Drbg {
    if i == 0 then Seeded(h, seed) else DrawOne(h, DrawFrom(h, seed, order, i - 1), order).1
  }

  function Nonce(h: Keyed, seed: seq<Octet>, order: nat, i: nat): nat {
    DrawOne(h, DrawFrom(h, seed, order, i), order).0
  }

  /** The digest as a number below the order, cut to the order's bit length first. */
  function DigestValue(digest: seq<Octet>, order: nat): nat
    requires 0 < order
  {
    ShiftRight(Number(digest), |digest| * 8 - BitLength(order)) % order
  }

  function SeedOf(order: nat, d: nat, z: nat): seq<Octet>
    requires d < order && z < order
  {
    BelowOrderFits(d, order);
    BelowOrderFits(z, order);
    Octets(d, Width(order)) + Octets(z, Width(order))
  }

  /** The first i nonces of the stream gave no signature. */
  predicate NoneBefore(h: Keyed, seed: seq<Octet>, order: nat, sign: nat -> Outcome<(int, int)>, i: nat) {
    forall j: nat :: j < i ==> sign(Nonce(h, seed, order, j)).Fail?
  }

  /** Draw nonces until one gives a signature, at most `limit` of them. */
  method FirstSignature(h: Keyed, seed: seq<Octet>, order: nat, sign: nat -> Outcome<(int, int)>, limit: nat)
    returns (sig: Outcome<(int, int)>, i: nat)
    ensures i <= limit && (sig.Ok? <==> i < limit) && (sig.Ok? ==> sign(Nonce(h, seed, order, i)) == sig)
    ensures NoneBefore(h, seed, order, sign, i)
  {
    var g := Seeded(h, seed);
    i := 0;
    while i < limit
      invariant i <= limit && g == DrawFrom(h, seed, order, i) && NoneBefore(h, seed, order, sign, i)
    {
      var k, next := Draw(h, g, order);
      sig := sign(k);
      if sig.Ok? {
        return;
      }
      g, i := next, i + 1;
    }
    sig := Fail;
  }

  /** The deterministic signature: the one of the first nonce of the stream that gives any. It is
      in range and verifies under the public point. */
  method Sign<P(!new)>(c: Curve<P>, h: Keyed, d: nat, digest: seq<Octet>, limit: nat)
      returns (sig: Outcome<(int, int)>, i: nat)
    requires Lawful(c) && 1 <= d <= c.order - 1
    ensures sig.Ok? ==> Verifies(c, Multiple(c, d, c.base), DigestValue(digest, c.order), sig.value.0, sig.value.1)
    ensures var z := DigestValue(digest, c.order);
            var seed := SeedOf(c.order, d, z);
            && i <= limit && (sig.Ok? <==> i < limit)
            && (sig.Ok? ==> SignatureFrom(c, d, z, Nonce(h, seed, c.order, i)) == sig)
            && forall j: nat :: j < i ==> SignatureFrom(c, d, z, Nonce(h, seed, c.order, j)).Fail?
  {
    var z := DigestValue(digest, c.order);
    var seed := SeedOf(c.order, d, z);
    var sign := (k: nat) => SignatureFrom(c, d, z, k);
    sig, i := FirstSignature(h, seed, c.order, sign, limit);
    forall j: nat | j < i ensures SignatureFrom(c, d, z, Nonce(h, seed, c.order, j)).Fail? {
      assert sign(Nonce(h, seed, c.order, j)).Fail?;
    }
    if sig.Ok? { SignaturesVerify(c, d, z, Nonce(h, seed, c.order, i)); }
  }

  method Draw(h: Keyed, g: Drbg, order: nat) returns (candidate: nat, next: Drbg)
    ensures (candidate, next) == DrawOne(h, g, order)
  {
    var buffer: seq<Octet>, after := [], g;
    while |buffer| < Width(order)
      invariant Fill(h, after, buffer, Width(order)) == Fill(h, g, [], Width(order))
      decreases Width(order) - |buffer|
    {
      after := Drbg(after.k, h(after.k, after.v));
      buffer := buffer + after.v;
    }
    candidate, next := CandidateOf(buffer, order), Rejected(h, after);
  }
}

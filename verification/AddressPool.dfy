/** IPv4 addresses as 32-bit values, CIDR prefixes, and the checks on the virtual address and the
    private load-balancer pool. Shifting the host bits out is division by the block size. */
module AddressPool {
  import opened Powers
  import opened Bits
  import opened Strings

  type Address = a: int | 0 <= a < 0x1_0000_0000

  /** A parsed CIDR of either family. */
  datatype Prefix = V4(addr: Address, bits: nat) | V6(wide: nat, bits: nat)

  predicate Parsed(p: Prefix) {
    p.bits <= Width(p)
  }

  function Width(p: Prefix): nat { if p.V4? then 32 else 128 }

  function Base(p: Prefix): nat { if p.V4? then p.addr else p.wide }

  /** The number of addresses of the block: one more than all ones shifted right by the length. */
  function Span(p: Prefix): (n: int)
    requires p.V4? && Parsed(p)
  {
    Pow2(32 - p.bits)
  }

  function First(p: Prefix): int requires p.V4? && Parsed(p) { SpanPositive(p); p.addr / Span(p) * Span(p) }
  function Last(p: Prefix): int requires p.V4? && Parsed(p) { First(p) + (Span(p) - 1) }

  /** Membership of an IPv4 address: the bits above the host part agree. An IPv6 prefix holds none. */
  predicate Contains(p: Prefix, a: Address)
    requires Parsed(p)
  {
    p.V4? && (SpanPositive(p); a / Span(p) == p.addr / Span(p))
  }

  // ----- arithmetic -----

  lemma SpanPositive(p: Prefix)
    requires p.V4? && Parsed(p)
    ensures 0 < Span(p)
  {
    Pow2Positive(32 - p.bits);
  }

  // ----- prefixes -----

  /** A prefix is exactly the interval from its first to its last address. */
  lemma PrefixIsInterval(p: Prefix, a: Address)
    requires p.V4? && Parsed(p)
    ensures Contains(p, a) <==> First(p) <= a <= Last(p)
  {
    SpanPositive(p);
    var q := p.addr / Span(p);
    QuotientIsBlock(a, Span(p), q);
    assert (q + 1) * Span(p) == q * Span(p) + Span(p);
  }

  lemma BaseIsMember(p: Prefix)
    requires p.V4? && Parsed(p)
    ensures First(p) <= p.addr <= Last(p) && 0 <= First(p)
  {
    PrefixIsInterval(p, p.addr);
    SpanPositive(p);
    BlockIsNat(p.addr, Span(p));
  }

  /** Membership of an address of the prefix's own family: the bits above the host part agree. */
  predicate Spans(p: Prefix, a: nat)
    requires Parsed(p)
  {
    Pow2Positive(Width(p) - p.bits);
    a / Pow2(Width(p) - p.bits) == Base(p) / Pow2(Width(p) - p.bits)
  }

  /** Some address of one family lies in both. */
  ghost predicate Share(p: Prefix, q: Prefix)
    requires Parsed(p) && Parsed(q)
  {
    Width(p) == Width(q) && exists a: nat :: Spans(p, a) && Spans(q, a)
  }

  /** The code compares families and then tests each base address against the other prefix. */
  predicate PrefixesOverlap(left: Prefix, right: Prefix)
    requires Parsed(left) && Parsed(right)
  {
    Width(left) == Width(right) && (Spans(left, Base(right)) || Spans(right, Base(left)))
  }

  /** The coarser of two prefixes that share an address contains the other's base. */
  lemma SharedNests(coarse: Prefix, fine: Prefix, a: nat)
    requires Width(coarse) == Width(fine) && Parsed(coarse) && Parsed(fine) && coarse.bits <= fine.bits
    requires Spans(coarse, a) && Spans(fine, a)
    ensures Spans(coarse, Base(fine))
  {
    var d, k := Pow2(Width(fine) - fine.bits), Pow2(fine.bits - coarse.bits);
    Pow2Positive(Width(fine) - fine.bits);
    Pow2Positive(fine.bits - coarse.bits);
    Pow2Sum(Width(fine) - fine.bits, fine.bits - coarse.bits);
    QuotientOfQuotient(a, d, k);
    QuotientOfQuotient(Base(fine), d, k);
  }

  /** Two prefixes pass the overlap test exactly when they share an address; for IPv4 prefixes
      membership is the one above. */
  lemma OverlapMeansShared(left: Prefix, right: Prefix)
    requires Parsed(left) && Parsed(right)
    ensures PrefixesOverlap(left, right) <==> Share(left, right)
    ensures left.V4? ==> forall a: Address :: Spans(left, a) <==> Contains(left, a)
  {
    assert Spans(left, Base(left)) && Spans(right, Base(right));
    if Share(left, right) {
      var a: nat :| Spans(left, a) && Spans(right, a);
      if left.bits <= right.bits { SharedNests(left, right, a); } else { SharedNests(right, left, a); }
    }
  }

  /** The code's interval comparison of an address range with a prefix. */
  predicate RangeOverlapsPrefix(start: Address, stop: Address, p: Prefix)
    requires Parsed(p)
  {
    p.V4? && start <= Last(p) && First(p) <= stop
  }

  /** A non-empty range overlaps a prefix exactly when some address of the range is in it. */
  lemma RangeOverlapMeansShared(start: Address, stop: Address, p: Prefix)
    requires Parsed(p) && start <= stop
    ensures RangeOverlapsPrefix(start, stop, p) <==> exists a: Address :: start <= a <= stop && Contains(p, a)
  {
    if p.V4? {
      BaseIsMember(p);
      var shared: Address := if First(p) <= start then start else if First(p) <= stop then First(p) else stop;
      PrefixIsInterval(p, shared);
      if RangeOverlapsPrefix(start, stop, p) {
        assert start <= shared <= stop && Contains(p, shared);
      }
      forall a: Address | start <= a <= stop && Contains(p, a) ensures RangeOverlapsPrefix(start, stop, p) {
        PrefixIsInterval(p, a);
      }
    }
  }

  // ----- the code's bit arithmetic -----

  const ALL_ONES := 0xFFFF_FFFF

  lemma Pow2Of32()
    ensures Pow2(32) == ALL_ONES + 1
  {
    Pow2Of8And16();
    Pow2Sum(16, 16);
  }

  /** All ones shifted right by the prefix length are the host bits. */
  lemma HostMask(p: Prefix)
    requires p.V4? && Parsed(p)
    ensures 0 < Pow2(p.bits) && 0 < Span(p) <= ALL_ONES + 1 && ALL_ONES / Pow2(p.bits) == Span(p) - 1
  {
    Pow2Of32();
    SpanPositive(p);
    Pow2Positive(p.bits);
    Pow2Grows(32 - p.bits, 32);
    Pow2Sum(32 - p.bits, p.bits);
    QuotientIsBlock(ALL_ONES, Pow2(p.bits), Span(p) - 1);
    Distribute(Span(p), Pow2(p.bits));
  }

  lemma Distribute(n: int, d: int)
    ensures (n - 1) * d == n * d - d && (n - 1 + 1) * d == n * d
  {
  }

  lemma MaskedIsFirst(p: Prefix)
    requires p.V4? && Parsed(p)
    ensures 0 < Span(p) <= ALL_ONES + 1 && And(p.addr, ALL_ONES + 1 - Span(p)) == First(p)
  {
    Pow2Of32();
    AndHigh(p.addr, 32, 32 - p.bits);
  }

  lemma FilledIsLast(p: Prefix)
    requires p.V4? && Parsed(p)
    ensures 0 < Span(p) && 0 <= First(p) && Or(First(p), Span(p) - 1) == Last(p)
  {
    BaseIsMember(p);
    SpanPositive(p);
    QuotientAtMost(0, p.addr / Span(p), Span(p));
    OrLow(p.addr / Span(p), Span(p) - 1, 32 - p.bits);
  }

  /** The code's words for a prefix are the model's numbers: all ones shifted right by the length
      are the host bits, masking them out gives the first address, setting them the last one, and
      an address belongs to the prefix exactly when it differs from the base in no other bit. */
  lemma WordsMeanBlock(p: Prefix, a: Address)
    requires p.V4? && Parsed(p)
    ensures 0 < Pow2(p.bits) && 0 < Span(p) && 0 <= First(p)
    ensures var hostMask := ALL_ONES / Pow2(p.bits);
            0 <= hostMask <= ALL_ONES && And(p.addr, ALL_ONES - hostMask) == First(p)
                && Or(First(p), hostMask) == Last(p)
    ensures Xor(a, p.addr) / Span(p) == 0 <==> Contains(p, a)
  {
    HostMask(p);
    MaskedIsFirst(p);
    FilledIsLast(p);
    XorHigh(a, p.addr, 32 - p.bits);
  }

  // ----- accepted pools -----

  /** The address blocks of section 3 of RFC 1918: 10/8, 172.16/12 and 192.168/16. */
  predicate IsPrivate(a: Address) {
    a / 0x100_0000 == 10 || a / 0x10_0000 == 0xAC1 || a / 0x1_0000 == 0xC0A8
  }

  function Quad(a: Address): string {
    Decimal(a / 0x100_0000) + "." + Decimal(a / 0x1_0000 % 0x100) + "." + Decimal(a / 0x100 % 0x100) + "."
        + Decimal(a % 0x100)
  }

  /** Not unspecified, loopback, link-local, multicast or broadcast. */
  predicate IsGlobalUnicast(a: Address) {
    a != 0 && a / 0x100_0000 != 127 && a / 0x1_0000 != 0xA9FE && a / 0x1000_0000 != 14 && a != 0xFFFF_FFFF
  }

  /** The canonical text of a public IPv4 address. */
  predicate IsPublicIPv4(text: string) {
    exists a: Address :: Quad(a) == text && IsGlobalUnicast(a) && !IsPrivate(a)
  }

  /** A usable private host of the subnet: neither its network nor its broadcast address. */
  predicate UsableHost(subnet: Prefix, a: Address)
    requires Parsed(subnet)
  {
    subnet.V4? && subnet.bits <= 30 && IsPrivate(a) && Contains(subnet, a) && a != First(subnet) && a != Last(subnet)
  }

  const MIN_ADDRESSES := 16
  const MAX_ADDRESSES := 256

  function Count(start: Address, stop: Address): int { (stop - start) % 0x1_0000_0000 + 1 }

  predicate PoolAccepted(subnet: Prefix, pod: Prefix, service: Prefix, virtualIP: Address, start: Address,
      stop: Address)
    requires Parsed(subnet) && Parsed(pod) && Parsed(service)
  {
    && IsPrivate(start) && IsPrivate(stop) && start <= stop
    && MIN_ADDRESSES <= Count(start, stop) <= MAX_ADDRESSES
    && UsableHost(subnet, start) && UsableHost(subnet, stop)
    && !(start <= virtualIP <= stop)
    && !RangeOverlapsPrefix(start, stop, pod) && !RangeOverlapsPrefix(start, stop, service)
  }

  lemma PrivateThroughout(start: Address, stop: Address, a: Address)
    requires IsPrivate(start) && IsPrivate(stop) && start <= a <= stop && stop - start < MAX_ADDRESSES
    ensures IsPrivate(a)
  {
  }

  lemma HostsThroughout(subnet: Prefix, start: Address, stop: Address, a: Address)
    requires Parsed(subnet) && UsableHost(subnet, start) && UsableHost(subnet, stop) && start <= a <= stop
             && IsPrivate(a)
    ensures UsableHost(subnet, a)
  {
    PrefixIsInterval(subnet, start);
    PrefixIsInterval(subnet, stop);
    PrefixIsInterval(subnet, a);
  }

  lemma OutsideThroughout(start: Address, stop: Address, p: Prefix, a: Address)
    requires Parsed(p) && start <= a <= stop && !RangeOverlapsPrefix(start, stop, p)
    ensures !Contains(p, a)
  {
    RangeOverlapMeansShared(start, stop, p);
  }

  /** Every address of an accepted pool, not only its ends, is a private usable host of the
      subnet, is not the virtual address, and lies outside the pod and service networks. */
  lemma AcceptedPoolIsSafe(subnet: Prefix, pod: Prefix, service: Prefix, virtualIP: Address, start: Address,
      stop: Address, a: Address)
    requires Parsed(subnet) && Parsed(pod) && Parsed(service)
    requires PoolAccepted(subnet, pod, service, virtualIP, start, stop) && start <= a <= stop
    ensures IsPrivate(a) && UsableHost(subnet, a) && a != virtualIP && !Contains(pod, a) && !Contains(service, a)
  {
    PrivateThroughout(start, stop, a);
    HostsThroughout(subnet, start, stop, a);
    OutsideThroughout(start, stop, pod, a);
    OutsideThroughout(start, stop, service, a);
  }

  /** Such pools exist: 10.0.0.16 to 10.0.0.31 in 10.0.0.0/24 with the default pod and service networks. */
  lemma SomePoolIsAccepted()
    ensures PoolAccepted(V4(0x0A00_0000, 24), V4(0x0A2A_0000, 16), V4(0x0A2B_0000, 16), 0x0A00_0005, 0x0A00_0010,
            0x0A00_001F)
  {
    Pow2Of8And16();
  }

  lemma Pow2Of8And16()
    ensures Pow2(8) == 256 && Pow2(16) == 65536
  {
    assert Pow2(4) == 16 by { assert Pow2(2) == 4; }
    Pow2Sum(4, 4);
    Pow2Sum(8, 8);
  }
}

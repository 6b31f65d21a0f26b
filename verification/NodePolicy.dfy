/** The node firewall policy: what its validator accepts means exactly what its generator
    produces, and the policy comparison is equality up to order and rule UUIDs. */
module NodePolicy {
  import opened Counting
  import opened Outcomes
  import opened Powers
  import opened Strings
  import opened AddressPool
  import opened PortPolicy

  /** Address parsing belongs to a library, like prefix parsing. */
  datatype Parsers = Parsers(prefix: Parser, address: string -> Outcome<Address>)

  datatype Networks = Networks(subnet: Prefix, pod: Prefix)

  predicate ValidNetworks(n: Networks) { Parsed(n.subnet) && Parsed(n.pod) }

  /** The prefix lies within the network: its base does, and it is no coarser. */
  predicate Within(p: Prefix, network: Prefix)
    requires Parsed(network)
  {
    p.V4? && network.V4? && Contains(network, p.addr) && network.bits <= p.bits
  }

  /** Same block of addresses. */
  predicate SameBlock(p: Prefix, network: Prefix)
    requires Parsed(p) && Parsed(network)
  {
    p.V4? && network.V4? && p.bits == network.bits && First(p) == First(network)
  }

  predicate EndpointOk(ps: Parsers, n: Networks, raw: string)
    requires ValidNetworks(n)
  {
    if ps.prefix(raw).Ok? then
      var p := ps.prefix(raw).value;
      p.V4? && Parsed(p) && IsPrivate(p.addr) && (Within(p, n.subnet) || Within(p, n.pod))
    else
      ps.address(raw).Ok? && IsPrivate(ps.address(raw).value)
      && (Contains(n.subnet, ps.address(raw).value) || Contains(n.pod, ps.address(raw).value))
  }

  predicate Covers(ps: Parsers, raw: string, network: Prefix)
    requires Parsed(network)
  {
    ps.prefix(raw).Ok? && Parsed(ps.prefix(raw).value) && SameBlock(ps.prefix(raw).value, network)
  }

  predicate IsProtocol(p: string) { p == "tcp" || p == "udp" || p == "icmp" }

  predicate NoPorts(rule: Rule) { rule.portStart.Fail? && rule.portEnd.Fail? }

  predicate Ingress(ps: Parsers, n: Networks, rule: Rule)
    requires ValidNetworks(n)
  {
    && rule.direction == "inbound" && NoPorts(rule) && rule.endpointType == "ip_prefixes" && rule.endpoints != []
    && forall i :: 0 <= i < |rule.endpoints| ==> EndpointOk(ps, n, rule.endpoints[i])
  }

  predicate Egress(rule: Rule) {
    rule.direction == "outbound" && NoPorts(rule) && rule.endpointType == "any"
  }

  predicate RuleCovers(ps: Parsers, rule: Rule, network: Prefix)
    requires Parsed(network)
  {
    rule.direction == "inbound" && exists i :: 0 <= i < |rule.endpoints| && Covers(ps, rule.endpoints[i], network)
  }

  /** Among the first `m` rules, one of this protocol covers the network. */
  predicate HasCover(ps: Parsers, rules: seq<Rule>, m: nat, protocol: string, network: Prefix)
    requires m <= |rules| && Parsed(network)
  {
    exists i :: 0 <= i < m && rules[i].protocol == protocol && RuleCovers(ps, rules[i], network)
  }

  predicate HasEgress(rules: seq<Rule>, m: nat, protocol: string)
    requires m <= |rules|
  {
    exists i :: 0 <= i < m && rules[i].protocol == protocol && rules[i].direction == "outbound"
  }

  predicate Complete(ps: Parsers, n: Networks, rules: seq<Rule>, protocol: string)
    requires ValidNetworks(n)
  {
    HasCover(ps, rules, |rules|, protocol, n.subnet) && HasCover(ps, rules, |rules|, protocol, n.pod)
        && HasEgress(rules, |rules|, protocol)
  }

  predicate RuleOk(ps: Parsers, n: Networks, rule: Rule)
    requires ValidNetworks(n)
  {
    IsProtocol(rule.protocol) && (Ingress(ps, n, rule) || Egress(rule))
  }

  /** What the validator accepts without management access. */
  predicate Valid(ps: Parsers, n: Networks, rules: seq<Rule>)
    requires ValidNetworks(n)
  {
    && |rules| == 6
    && (forall i :: 0 <= i < |rules| ==> RuleOk(ps, n, rules[i]))
    && Complete(ps, n, rules, "tcp") && Complete(ps, n, rules, "udp") && Complete(ps, n, rules, "icmp")
  }

  // ----- the validator's loop -----

  method ScanEndpoints(ps: Parsers, n: Networks, endpoints: seq<string>) returns (ok: bool, subnet: bool, pod: bool)
    requires ValidNetworks(n)
    ensures ok <==> forall i :: 0 <= i < |endpoints| ==> EndpointOk(ps, n, endpoints[i])
    ensures ok ==> (subnet <==> exists i :: 0 <= i < |endpoints| && Covers(ps, endpoints[i], n.subnet))
    ensures ok ==> (pod <==> exists i :: 0 <= i < |endpoints| && Covers(ps, endpoints[i], n.pod))
  {
    ok, subnet, pod := true, false, false;
    for i := 0 to |endpoints|
      invariant ok && forall j :: 0 <= j < i ==> EndpointOk(ps, n, endpoints[j])
      invariant subnet <==> exists j :: 0 <= j < i && Covers(ps, endpoints[j], n.subnet)
      invariant pod <==> exists j :: 0 <= j < i && Covers(ps, endpoints[j], n.pod)
    {
      if !EndpointOk(ps, n, endpoints[i]) {
        return false, false, false;
      }
      subnet := subnet || Covers(ps, endpoints[i], n.subnet);
      pod := pod || Covers(ps, endpoints[i], n.pod);
    }
  }

  /** One rule: whether it is acceptable, and what it contributes. */
  method ScanRule(ps: Parsers, n: Networks, rule: Rule) returns (ok: bool, subnet: bool, pod: bool, egress: bool)
    requires ValidNetworks(n)
    ensures ok <==> RuleOk(ps, n, rule)
    ensures ok ==> (subnet <==> RuleCovers(ps, rule, n.subnet)) && (pod <==> RuleCovers(ps, rule, n.pod))
    ensures ok ==> (egress <==> rule.direction == "outbound")
  {
    ok, subnet, pod, egress := false, false, false, false;
    if !IsProtocol(rule.protocol) || !NoPorts(rule) {
      return;
    }
    if rule.direction == "inbound" {
      if rule.endpointType == "ip_prefixes" && rule.endpoints != [] {
        ok, subnet, pod := ScanEndpoints(ps, n, rule.endpoints);
      }
    } else if rule.direction == "outbound" {
      ok, egress := rule.endpointType == "any", true;
    }
  }

  function Marked(seen: set<string>, protocol: string, now: bool): set<string> {
    if now then seen + {protocol} else seen
  }

  method Validate(ps: Parsers, n: Networks, rules: seq<Rule>) returns (ok: bool)
    requires ValidNetworks(n)
    ensures ok <==> Valid(ps, n, rules)
  {
    if |rules| != 6 {
      return false;
    }
    var subnets: set<string>, pods: set<string>, outbound: set<string> := {}, {}, {};
    for i := 0 to |rules|
      invariant forall j :: 0 <= j < i ==> RuleOk(ps, n, rules[j])
      invariant forall p :: p in subnets <==> HasCover(ps, rules, i, p, n.subnet)
      invariant forall p :: p in pods <==> HasCover(ps, rules, i, p, n.pod)
      invariant forall p :: p in outbound <==> HasEgress(rules, i, p)
    {
      var good, subnet, pod, egress := ScanRule(ps, n, rules[i]);
      if !good {
        return false;
      }
      forall p
        ensures HasCover(ps, rules, i + 1, p, n.subnet)
                <==> HasCover(ps, rules, i, p, n.subnet) || (p == rules[i].protocol && subnet)
        ensures HasCover(ps, rules, i + 1, p, n.pod)
                <==> HasCover(ps, rules, i, p, n.pod) || (p == rules[i].protocol && pod)
        ensures HasEgress(rules, i + 1, p) <==> HasEgress(rules, i, p) || (p == rules[i].protocol && egress)
      {
        OneMore(ps, rules, i, p, n.subnet);
        OneMore(ps, rules, i, p, n.pod);
      }
      subnets := Marked(subnets, rules[i].protocol, subnet);
      pods := Marked(pods, rules[i].protocol, pod);
      outbound := Marked(outbound, rules[i].protocol, egress);
    }
    return "tcp" in subnets && "tcp" in pods && "tcp" in outbound && "udp" in subnets && "udp" in pods
        && "udp" in outbound
           && "icmp" in subnets && "icmp" in pods && "icmp" in outbound;
  }

  lemma OneMore(ps: Parsers, rules: seq<Rule>, i: nat, p: string, network: Prefix)
    requires i < |rules| && Parsed(network)
    ensures HasCover(ps, rules, i + 1, p, network) <==> HasCover(ps, rules, i, p, network)
                                                        || (p == rules[i].protocol && RuleCovers(ps, rules[i], network))
    ensures HasEgress(rules, i + 1, p) <==> HasEgress(rules, i, p)
                                            || (p == rules[i].protocol && rules[i].direction == "outbound")
  {
  }

  // ----- what an accepted policy admits -----

  /** The endpoint admits the address. */
  predicate EndpointAdmits(ps: Parsers, raw: string, a: Address) {
    if ps.prefix(raw).Ok? then Parsed(ps.prefix(raw).value) && Contains(ps.prefix(raw).value, a)
        else ps.address(raw) == Ok(a)
  }

  predicate Admits(ps: Parsers, rules: seq<Rule>, protocol: string, a: Address) {
    exists i, k ::
      && 0 <= i < |rules| && rules[i].direction == "inbound" && rules[i].protocol == protocol
      && 0 <= k < |rules[i].endpoints| && EndpointAdmits(ps, rules[i].endpoints[k], a)
  }

  lemma WithinMeansSubset(p: Prefix, network: Prefix, a: Address)
    requires p.V4? && Parsed(p) && Parsed(network) && Within(p, network) && Contains(p, a)
    ensures Contains(network, a)
  {
    var d, k := Span(p), Pow2(p.bits - network.bits);
    SpanPositive(p);
    Pow2Positive(p.bits - network.bits);
    Pow2Sum(32 - p.bits, p.bits - network.bits);
    QuotientOfQuotient(a, d, k);
    QuotientOfQuotient(p.addr, d, k);
  }

  lemma SameBlockMeansSame(p: Prefix, network: Prefix, a: Address)
    requires Parsed(p) && Parsed(network) && SameBlock(p, network)
    ensures Contains(p, a) <==> Contains(network, a)
  {
    PrefixIsInterval(p, a);
    PrefixIsInterval(network, a);
  }

  lemma EndpointStaysInside(ps: Parsers, n: Networks, raw: string, a: Address)
    requires ValidNetworks(n) && EndpointOk(ps, n, raw) && EndpointAdmits(ps, raw, a)
    ensures Contains(n.subnet, a) || Contains(n.pod, a)
  {
    if ps.prefix(raw).Ok? {
      var p := ps.prefix(raw).value;
      if Within(p, n.subnet) { WithinMeansSubset(p, n.subnet, a); } else { WithinMeansSubset(p, n.pod, a); }
    }
  }

  lemma CoveredIsAdmitted(ps: Parsers, rules: seq<Rule>, protocol: string, i: int, network: Prefix, a: Address)
    requires Parsed(network) && 0 <= i < |rules| && rules[i].protocol == protocol && RuleCovers(ps, rules[i], network)
             && Contains(network, a)
    ensures Admits(ps, rules, protocol, a)
  {
    var k :| 0 <= k < |rules[i].endpoints| && Covers(ps, rules[i].endpoints[k], network);
    SameBlockMeansSame(ps.prefix(rules[i].endpoints[k]).value, network, a);
    assert EndpointAdmits(ps, rules[i].endpoints[k], a);
  }

  /** An accepted policy admits inbound traffic exactly from the subnet and the pod network. */
  lemma ValidAdmitsExactly(ps: Parsers, n: Networks, rules: seq<Rule>, protocol: string, a: Address)
    requires ValidNetworks(n) && Valid(ps, n, rules) && IsProtocol(protocol)
    ensures Admits(ps, rules, protocol, a) <==> Contains(n.subnet, a) || Contains(n.pod, a)
  {
    assert Complete(ps, n, rules, protocol);
    if Admits(ps, rules, protocol, a) {
      var i, k :| 0 <= i < |rules| && rules[i].direction == "inbound" && rules[i].protocol == protocol
                  && 0 <= k < |rules[i].endpoints| && EndpointAdmits(ps, rules[i].endpoints[k], a);
      EndpointStaysInside(ps, n, rules[i].endpoints[k], a);
    }
    if Contains(n.subnet, a) {
      var i :| 0 <= i < |rules| && rules[i].protocol == protocol && RuleCovers(ps, rules[i], n.subnet);
      CoveredIsAdmitted(ps, rules, protocol, i, n.subnet, a);
    }
    if Contains(n.pod, a) {
      var i :| 0 <= i < |rules| && rules[i].protocol == protocol && RuleCovers(ps, rules[i], n.pod);
      CoveredIsAdmitted(ps, rules, protocol, i, n.pod, a);
    }
  }

  // ----- exactly one rule per protocol and direction -----

  /** Protocol and direction as one of six classes. */
  function ClassOf(protocol: string, direction: string): int {
    var p := if protocol == "tcp" then 0 else if protocol == "udp" then 1 else if protocol == "icmp" then 2 else 3;
    var d := if direction == "inbound" then 0 else if direction == "outbound" then 3 else 6;
    if p < 3 && d < 6 then p + d else -1
  }

  function Classes(rules: seq<Rule>): seq<int> {
    seq(|rules|, i requires 0 <= i < |rules| => ClassOf(rules[i].protocol, rules[i].direction))
  }

  function UpTo(n: nat): (s: set<int>)
    ensures |s| == n && forall x :: x in s <==> 0 <= x < n
  {
    if n == 0 then {} else UpTo(n - 1) + {n - 1}
  }

  /** Six entries that take each of six values take none of them twice. */
  lemma NoneTwice(s: seq<int>, c: seq<int>, i: int, j: int)
    requires |s| == 6 && |c| == 6 && (forall k :: 0 <= k < 6 ==> 0 <= c[k] < 6 && s[c[k]] == k)
    requires 0 <= i < 6 && 0 <= j < 6 && s[i] == s[j] && 0 <= s[i] < 6
    ensures i == j
  {
    Reached(s, c, i);
    Reached(s, c, j);
  }

  lemma {:induction false} DistinctSize(c: seq<int>)
    requires Distinct(c)
    ensures |set x | x in c| == |c|
  {
    if c != [] {
      var n := |c| - 1;
      DistinctSize(c[..n]);
      assert c == c[..n] + [c[n]];
      assert (set x | x in c) == (set x | x in c[..n]) + {c[n]};
    }
  }

  /** As many distinct numbers below `n` as there are leave none out. */
  lemma NoneLeftOut(c: seq<int>, i: int)
    requires Distinct(c) && (forall k :: 0 <= k < |c| ==> 0 <= c[k] < |c|) && 0 <= i < |c|
    ensures i in c
  {
    DistinctSize(c);
    if i !in c {
      assert (set x | x in c) <= UpTo(|c|) - {i};
      SubsetIsSmaller((set x | x in c), UpTo(|c|) - {i});
    }
  }

  lemma Reached(s: seq<int>, c: seq<int>, i: int)
    requires |s| == 6 && |c| == 6 && (forall k :: 0 <= k < 6 ==> 0 <= c[k] < 6 && s[c[k]] == k) && 0 <= i < 6
    ensures 0 <= s[i] < 6 && c[s[i]] == i
  {
    NoneLeftOut(c, i);
  }

  lemma ClassPresent(ps: Parsers, n: Networks, rules: seq<Rule>, protocol: string, direction: string) returns (i: int)
    requires ValidNetworks(n) && Complete(ps, n, rules, protocol) && (direction == "inbound" || direction == "outbound")
    ensures 0 <= i < |rules| && rules[i].protocol == protocol && rules[i].direction == direction
    ensures Classes(rules)[i] == ClassOf(protocol, direction)
  {
    if direction == "outbound" {
      i :| 0 <= i < |rules| && rules[i].protocol == protocol && rules[i].direction == "outbound";
    } else {
      i :| 0 <= i < |rules| && rules[i].protocol == protocol && RuleCovers(ps, rules[i], n.subnet);
    }
  }

  lemma ClassIndices(ps: Parsers, n: Networks, rules: seq<Rule>) returns (c: seq<int>)
    requires ValidNetworks(n) && Valid(ps, n, rules)
    ensures |c| == 6 && forall k :: 0 <= k < 6 ==> 0 <= c[k] < 6 && Classes(rules)[c[k]] == k
  {
    var a := ClassPresent(ps, n, rules, "tcp", "inbound");
    var b := ClassPresent(ps, n, rules, "udp", "inbound");
    var d := ClassPresent(ps, n, rules, "icmp", "inbound");
    var e := ClassPresent(ps, n, rules, "tcp", "outbound");
    var f := ClassPresent(ps, n, rules, "udp", "outbound");
    var g := ClassPresent(ps, n, rules, "icmp", "outbound");
    c := [a, b, d, e, f, g];
    ClassNumbers();
  }

  lemma ClassNumbers()
    ensures ClassOf("tcp", "inbound") == 0 && ClassOf("udp", "inbound") == 1 && ClassOf("icmp", "inbound") == 2
    ensures ClassOf("tcp", "outbound") == 3 && ClassOf("udp", "outbound") == 4 && ClassOf("icmp", "outbound") == 5
  {
  }

  predicate OfClass(rule: Rule, protocol: string, direction: string) {
    rule.protocol == protocol && rule.direction == direction
  }

  /** An accepted policy holds exactly one inbound and one outbound rule per protocol. */
  lemma ValidHasOneEach(ps: Parsers, n: Networks, rules: seq<Rule>, protocol: string, direction: string)
    requires ValidNetworks(n) && Valid(ps, n, rules) && IsProtocol(protocol)
             && (direction == "inbound" || direction == "outbound")
    ensures exists i :: 0 <= i < |rules| && OfClass(rules[i], protocol, direction)
                        && forall j :: 0 <= j < |rules| && OfClass(rules[j], protocol, direction) ==> j == i
  {
    var c := ClassIndices(ps, n, rules);
    var i := ClassPresent(ps, n, rules, protocol, direction);
    assert OfClass(rules[i], protocol, direction);
    forall j | 0 <= j < |rules| && OfClass(rules[j], protocol, direction) ensures j == i {
      NoneTwice(Classes(rules), c, i, j);
    }
  }

  // ----- the generator -----

  function Inbound(protocol: string, subnet: string, pod: string): Rule {
    Rule("", protocol, "inbound", Fail, Fail, "ip_prefixes", [subnet, pod])
  }

  function Outbound(protocol: string): Rule {
    Rule("", protocol, "outbound", Fail, Fail, "any", [])
  }

  function Generated(subnet: string, pod: string): seq<Rule> {
    [Inbound("tcp", subnet, pod), Outbound("tcp"), Inbound("udp", subnet, pod), Outbound("udp"),
        Inbound("icmp", subnet, pod), Outbound("icmp")]
  }

  lemma OwnEndpoint(ps: Parsers, n: Networks, raw: string, network: Prefix)
    requires ValidNetworks(n) && ps.prefix(raw) == Ok(network) && network.V4?
             && (network == n.subnet || network == n.pod)
    ensures Covers(ps, raw, network) && (EndpointOk(ps, n, raw) <==> IsPrivate(network.addr))
  {
    assert Contains(network, network.addr);
  }

  lemma InboundOk(ps: Parsers, n: Networks, protocol: string, subnet: string, pod: string)
    requires ValidNetworks(n) && IsProtocol(protocol)
    ensures RuleOk(ps, n, Inbound(protocol, subnet, pod)) <==> EndpointOk(ps, n, subnet) && EndpointOk(ps, n, pod)
    ensures RuleOk(ps, n, Outbound(protocol))
  {
    var rule := Inbound(protocol, subnet, pod);
    assert rule.endpoints[0] == subnet && rule.endpoints[1] == pod;
  }

  lemma GeneratedIsComplete(ps: Parsers, n: Networks, subnet: string, pod: string, i: nat, protocol: string)
    requires ValidNetworks(n) && Covers(ps, subnet, n.subnet) && Covers(ps, pod, n.pod)
    requires i < 5 && Generated(subnet, pod)[i] == Inbound(protocol, subnet, pod)
             && Generated(subnet, pod)[i + 1] == Outbound(protocol)
    ensures Complete(ps, n, Generated(subnet, pod), protocol)
  {
    var rules := Generated(subnet, pod);
    assert Covers(ps, rules[i].endpoints[0], n.subnet) && Covers(ps, rules[i].endpoints[1], n.pod);
    assert RuleCovers(ps, rules[i], n.subnet) && RuleCovers(ps, rules[i], n.pod);
    assert rules[i + 1].direction == "outbound";
  }

  /** The generator's rules for two IPv4 networks are accepted exactly when both base addresses
      are private. */
  lemma GeneratedIsValidIff(ps: Parsers, n: Networks, subnet: string, pod: string)
    requires ValidNetworks(n) && n.subnet.V4? && n.pod.V4? && ps.prefix(subnet) == Ok(n.subnet)
             && ps.prefix(pod) == Ok(n.pod)
    ensures Valid(ps, n, Generated(subnet, pod)) <==> IsPrivate(n.subnet.addr) && IsPrivate(n.pod.addr)
  {
    OwnEndpoint(ps, n, subnet, n.subnet);
    OwnEndpoint(ps, n, pod, n.pod);
    GeneratedIsComplete(ps, n, subnet, pod, 0, "tcp");
    GeneratedIsComplete(ps, n, subnet, pod, 2, "udp");
    GeneratedIsComplete(ps, n, subnet, pod, 4, "icmp");
    GeneratedRules(ps, n, subnet, pod);
  }

  /** The subnet that the callers accept before they build a policy: a private IPv4 network. */
  predicate AcceptedSubnet(p: Prefix) {
    p.V4? && Parsed(p) && IsPrivate(p.addr)
  }

  /** The one pod network that cluster validation accepts. */
  const POD_CIDR := "10.42.0.0/16"
  const POD_NETWORK: Prefix := V4(0x0A2A_0000, 16)

  /** With an accepted subnet and the fixed pod network, what the generator builds is always accepted. */
  lemma GeneratedIsAccepted(ps: Parsers, subnet: string)
    requires ps.prefix(subnet).Ok? && AcceptedSubnet(ps.prefix(subnet).value) && ps.prefix(POD_CIDR) == Ok(POD_NETWORK)
    ensures Valid(ps, Networks(ps.prefix(subnet).value, POD_NETWORK), Generated(subnet, POD_CIDR))
  {
    GeneratedIsValidIff(ps, Networks(ps.prefix(subnet).value, POD_NETWORK), subnet, POD_CIDR);
  }

  lemma GeneratedRules(ps: Parsers, n: Networks, subnet: string, pod: string)
    requires ValidNetworks(n)
    ensures (forall i :: 0 <= i < 6 ==> RuleOk(ps, n, Generated(subnet, pod)[i]))
            <==> EndpointOk(ps, n, subnet) && EndpointOk(ps, n, pod)
  {
    InboundOk(ps, n, "tcp", subnet, pod);
    InboundOk(ps, n, "udp", subnet, pod);
    InboundOk(ps, n, "icmp", subnet, pod);
    var rules := Generated(subnet, pod);
    assert rules[0] == Inbound("tcp", subnet, pod) && rules[1] == Outbound("tcp")
        && rules[2] == Inbound("udp", subnet, pod)
           && rules[3] == Outbound("udp") && rules[4] == Inbound("icmp", subnet, pod) && rules[5] == Outbound("icmp");
  }

  // ----- comparing policies -----

  function IntText(n: int): string {
    if n < 0 then "-" + Decimal(-n) else Decimal(n)
  }

  function PortField(port: Outcome<int>): string {
    if port.Ok? then IntText(port.value) else ""
  }

  function Fields(rule: Rule): seq<string> {
    [rule.protocol, rule.direction, PortField(rule.portStart), PortField(rule.portEnd), rule.endpointType,
        Join(',', Sort(rule.endpoints))]
  }

  /** The text a rule is compared by. */
  function Normal(rule: Rule): string { Join('\0', Fields(rule)) }

  function Normals(rules: seq<Rule>): seq<string> {
    seq(|rules|, i requires 0 <= i < |rules| => Normal(rules[i]))
  }

  method SamePolicy(actual: seq<Rule>, expected: seq<Rule>) returns (same: bool)
    ensures same <==> |actual| == |expected| && multiset(Normals(actual)) == multiset(Normals(expected))
  {
    if |actual| != |expected| {
      return false;
    }
    var a := Normalize(actual);
    var b := Normalize(expected);
    SortForgetsOrder(Normals(actual), Normals(expected));
    SortIsSorting(Normals(actual));
    SortIsSorting(Normals(expected));
    assert |a| == |multiset(Normals(actual))| && |b| == |multiset(Normals(expected))|;
    same := SameList(a, b);
  }

  method SameList(a: seq<string>, b: seq<string>) returns (same: bool)
    requires |a| == |b|
    ensures same <==> a == b
  {
    for i := 0 to |a|
      invariant forall j :: 0 <= j < i ==> a[j] == b[j]
    {
      if a[i] != b[i] {
        return false;
      }
    }
    return true;
  }

  method Normalize(rules: seq<Rule>) returns (r: seq<string>)
    ensures r == Sort(Normals(rules))
  {
    r := [];
    for i := 0 to |rules|
      invariant |r| == i && forall j :: 0 <= j < i ==> r[j] == Normal(rules[j])
    {
      r := r + [Normal(rules[i])];
    }
    assert r == Normals(rules);
    r := Sort(r);
  }

  /** What a rule says, apart from its UUID and the order of its endpoints. The comparison cannot
      tell a lone empty endpoint from none, so neither does this. */
  datatype Core = Core(protocol: string, direction: string, portStart: Outcome<int>, portEnd: Outcome<int>,
                       endpointType: string, endpoints: multiset<string>)

  function CoreOf(rule: Rule): Core {
    Core(rule.protocol, rule.direction, rule.portStart, rule.portEnd, rule.endpointType,
         if rule.endpoints == [""] then multiset{} else multiset(rule.endpoints))
  }

  function Cores(rules: seq<Rule>): seq<Core> {
    seq(|rules|, i requires 0 <= i < |rules| => CoreOf(rules[i]))
  }

  /** No field holds the field separator, no endpoint the endpoint separator. */
  predicate Tidy(rule: Rule) {
    && '\0' !in rule.protocol && '\0' !in rule.direction && '\0' !in rule.endpointType
    && forall i :: 0 <= i < |rule.endpoints| ==> ',' !in rule.endpoints[i] && '\0' !in rule.endpoints[i]
  }

  lemma IntTextIsFaithful(m: int, n: int)
    ensures IntText(m) == IntText(n) <==> m == n
    ensures IntText(m) != "" && '\0' !in IntText(m)
  {
    DecimalRoundTrip(if m < 0 then -m else m);
    DecimalRoundTrip(if n < 0 then -n else n);
    if IntText(m) == IntText(n) {
      assert IntText(m)[0] == '-' <==> m < 0;
      assert IntText(n)[0] == '-' <==> n < 0;
      assert m < 0 ==> IntText(m)[1..] == Decimal(-m);
      assert n < 0 ==> IntText(n)[1..] == Decimal(-n);
    }
  }

  lemma PortFieldIsFaithful(p: Outcome<int>, q: Outcome<int>)
    ensures PortField(p) == PortField(q) <==> p == q
    ensures '\0' !in PortField(p)
  {
    if p.Ok? { IntTextIsFaithful(p.value, if q.Ok? then q.value else 0); }
    if q.Ok? { IntTextIsFaithful(q.value, if p.Ok? then p.value else 0); }
  }

  lemma SortedIsTidy(rule: Rule)
    requires Tidy(rule)
    ensures Free(',', Sort(rule.endpoints)) && Free('\0', Sort(rule.endpoints))
            && '\0' !in Join(',', Sort(rule.endpoints))
    ensures |Sort(rule.endpoints)| == |rule.endpoints|
  {
    SortIsSorting(rule.endpoints);
    assert |Sort(rule.endpoints)| == |multiset(rule.endpoints)|;
    forall i | 0 <= i < |Sort(rule.endpoints)|
        ensures ',' !in Sort(rule.endpoints)[i] && '\0' !in Sort(rule.endpoints)[i] {
      assert Sort(rule.endpoints)[i] in multiset(rule.endpoints);
    }
    JoinHolds(',', Sort(rule.endpoints), '\0');
  }

  lemma FieldsAreFree(rule: Rule)
    requires Tidy(rule)
    ensures Free('\0', Fields(rule))
  {
    SortedIsTidy(rule);
    PortFieldIsFaithful(rule.portStart, rule.portEnd);
    PortFieldIsFaithful(rule.portEnd, rule.portStart);
  }

  /** The endpoint field is empty exactly for no endpoints or a lone empty one. */
  lemma EmptyField(rule: Rule)
    requires Tidy(rule)
    ensures Join(',', Sort(rule.endpoints)) == "" <==> rule.endpoints == [] || rule.endpoints == [""]
  {
    SortedIsTidy(rule);
    if |rule.endpoints| == 1 {
      assert Sort(rule.endpoints) == [rule.endpoints[0]] by { assert rule.endpoints[1..] == []; }
      assert rule.endpoints == [rule.endpoints[0]];
    } else if |rule.endpoints| > 1 {
      JoinSeparates(',', Sort(rule.endpoints));
    }
  }

  lemma EndpointFieldMeans(r: Rule, s: Rule)
    requires Tidy(r) && Tidy(s)
    ensures Join(',', Sort(r.endpoints)) == Join(',', Sort(s.endpoints)) <==> CoreOf(r).endpoints == CoreOf(s).endpoints
  {
    EmptyField(r);
    EmptyField(s);
    SortedIsTidy(r);
    SortedIsTidy(s);
    SortForgetsOrder(r.endpoints, s.endpoints);
    EmptyCore(r);
    EmptyCore(s);
    if Join(',', Sort(r.endpoints)) == Join(',', Sort(s.endpoints)) != "" {
      JoinIsInjective(',', Sort(r.endpoints), Sort(s.endpoints));
    }
  }

  lemma EmptyCore(rule: Rule)
    ensures CoreOf(rule).endpoints == multiset{} <==> rule.endpoints == [] || rule.endpoints == [""]
  {
    if rule.endpoints != [] { assert rule.endpoints[0] in multiset(rule.endpoints); }
  }

  /** Separator-free rules are compared exactly by what they say. */
  lemma NormalMeansCore(r: Rule, s: Rule)
    requires Tidy(r) && Tidy(s)
    ensures Normal(r) == Normal(s) <==> CoreOf(r) == CoreOf(s)
  {
    EndpointFieldMeans(r, s);
    PortFieldIsFaithful(r.portStart, s.portStart);
    PortFieldIsFaithful(r.portEnd, s.portEnd);
    if Normal(r) == Normal(s) {
      FieldsAreFree(r);
      FieldsAreFree(s);
      JoinIsInjective('\0', Fields(r), Fields(s));
      assert Fields(r)[0] == Fields(s)[0] && Fields(r)[1] == Fields(s)[1] && Fields(r)[2] == Fields(s)[2]
             && Fields(r)[3] == Fields(s)[3] && Fields(r)[4] == Fields(s)[4] && Fields(r)[5] == Fields(s)[5];
    }
  }

  function Drop<T>(s: seq<T>, j: nat): (r: seq<T>)
    requires j < |s|
    ensures |r| == |s| - 1 && forall k :: 0 <= k < |r| ==> r[k] == s[if k < j then k else k + 1]
  {
    s[..j] + s[j + 1..]
  }

  lemma Dropped<T>(s: seq<T>, j: nat)
    requires j < |s|
    ensures multiset(s) == multiset(Drop(s, j)) + multiset{s[j]}
  {
    assert s == s[..j] + [s[j]] + s[j + 1..];
  }

  lemma SameRest<T>(a: multiset<T>, b: multiset<T>, x: T)
    requires a + multiset{x} == b + multiset{x}
    ensures a == b
  {
    assert a == (a + multiset{x}) - multiset{x};
    assert b == (b + multiset{x}) - multiset{x};
  }

  /** One view determines the other across two lists. */
  ghost predicate Determines<A, B>(fa: seq<A>, ga: seq<B>, fb: seq<A>, gb: seq<B>)
    requires |fa| == |ga| && |fb| == |gb|
  {
    forall i, j :: 0 <= i < |fa| && 0 <= j < |fb| && fa[i] == fb[j] ==> ga[i] == gb[j]
  }

  /** Equal multisets of one view of two lists are equal multisets of any view it determines. */
  lemma {:induction false} ViewsAgree<A, B>(fa: seq<A>, ga: seq<B>, fb: seq<A>, gb: seq<B>)
    requires |fa| == |ga| && |fb| == |gb| && multiset(fa) == multiset(fb) && Determines(fa, ga, fb, gb)
    ensures multiset(ga) == multiset(gb)
    decreases |fa|
  {
    assert |fa| == |multiset(fa)| == |multiset(fb)| == |fb|;
    if fa != [] {
      assert fa[0] in multiset(fb);
      var j :| 0 <= j < |fb| && fb[j] == fa[0];
      Dropped(fa, 0);
      Dropped(fb, j);
      SameRest(multiset(Drop(fa, 0)), multiset(Drop(fb, j)), fa[0]);
      assert ga[0] == gb[j];
      ViewsAgree(Drop(fa, 0), Drop(ga, 0), Drop(fb, j), Drop(gb, j));
      Dropped(ga, 0);
      Dropped(gb, j);
    }
  }

  /** For separator-free rules the policy comparison is multiset equality of what the rules say:
      rule order, endpoint order and UUIDs never matter. */
  lemma ComparisonMeansSameRules(a: seq<Rule>, b: seq<Rule>)
    requires (forall i :: 0 <= i < |a| ==> Tidy(a[i])) && (forall i :: 0 <= i < |b| ==> Tidy(b[i]))
    ensures multiset(Normals(a)) == multiset(Normals(b)) <==> multiset(Cores(a)) == multiset(Cores(b))
  {
    forall i, j | 0 <= i < |a| && 0 <= j < |b| ensures Normals(a)[i] == Normals(b)[j] <==> Cores(a)[i] == Cores(b)[j] {
      NormalMeansCore(a[i], b[j]);
    }
    if multiset(Normals(a)) == multiset(Normals(b)) { ViewsAgree(Normals(a), Cores(a), Normals(b), Cores(b)); }
    if multiset(Cores(a)) == multiset(Cores(b)) { ViewsAgree(Cores(a), Normals(a), Cores(b), Normals(b)); }
  }

  /** Outside that condition the comparison confuses rules: a comma inside an endpoint reads as two
      endpoints, and a lone empty endpoint reads as none. */
  lemma SeparatorsAreConfused()
    ensures var r := Rule("", "tcp", "inbound", Fail, Fail, "ip_prefixes", ["a,b"]);
            Normal(r) == Normal(r.(endpoints := ["a", "b"])) && CoreOf(r) != CoreOf(r.(endpoints := ["a", "b"]))
    ensures var r := Rule("", "tcp", "inbound", Fail, Fail, "ip_prefixes", [""]);
            Normal(r) == Normal(r.(endpoints := []))
  {
    assert ["a", "b"][1..] == ["b"] && ["b"][1..] == [] && ["a,b"][1..] == [] && [""][1..] == [];
    assert Sort(["b"]) == ["b"] && Sort(["a", "b"]) == ["a", "b"] && Sort(["a,b"]) == ["a,b"] && Sort([""]) == [""];
    assert "a" + [','] + "b" == "a,b";
    assert Join(',', ["a", "b"]) == "a" + [','] + Join(',', ["b"]);
    assert "a" in multiset(["a", "b"]) && "a" !in multiset(["a,b"]);
  }
}

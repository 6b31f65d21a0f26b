/** The canonical text of a port firewall policy: which rule lists are accepted, and that the
    text means exactly the mapping from protocol and port to endpoint set. */
module PortPolicy {
  import opened Counting
  import opened Outcomes
  import opened Strings
  import opened AddressPool

  /** One provider firewall rule; an absent port is `Fail`. */
  datatype Rule = Rule(uuid: string, protocol: string, direction: string, portStart: Outcome<int>,
      portEnd: Outcome<int>,
                       endpointType: string, endpoints: seq<string>)

  /** Who may reach a port. */
  datatype Reach = Anyone | Only(prefixes: set<string>)

  /** Parsing a CIDR belongs to a library: any function from text to prefixes will do. */
  type Parser = string -> Outcome<Prefix>

  /** The text of a prefix with its host bits cleared. */
  function MaskedText(p: Prefix): string
    requires p.V4? && Parsed(p)
  {
    BaseIsMember(p);
    Quad(First(p)) + "/" + Decimal(p.bits)
  }

  predicate CanonicalCIDR(parse: Parser, text: string) {
    parse(text).Ok? && parse(text).value.V4? && Parsed(parse(text).value) && MaskedText(parse(text).value) == text
  }

  predicate AcceptedEndpoints(parse: Parser, rule: Rule) {
    || (rule.endpointType == "any" && rule.endpoints == [])
    || (rule.endpointType == "ip_prefixes" && rule.endpoints != [] && Distinct(rule.endpoints)
        && forall i :: 0 <= i < |rule.endpoints| ==> CanonicalCIDR(parse, rule.endpoints[i]))
  }

  predicate AcceptedRule(parse: Parser, rule: Rule) {
    && rule.direction == "inbound" && (rule.protocol == "tcp" || rule.protocol == "udp")
    && rule.portStart.Ok? && rule.portEnd == rule.portStart && 1 <= rule.portStart.value <= 65535
    && AcceptedEndpoints(parse, rule)
  }

  predicate SamePort(a: Rule, b: Rule) {
    a.protocol == b.protocol && a.portStart == b.portStart
  }

  predicate Accepted(parse: Parser, rules: seq<Rule>) {
    && rules != [] && (forall i :: 0 <= i < |rules| ==> AcceptedRule(parse, rules[i]))
    && forall i, j :: 0 <= i < j < |rules| ==> !SamePort(rules[i], rules[j])
  }

  function PortText(rule: Rule): string {
    if rule.portStart.Ok? && 0 <= rule.portStart.value then Decimal(rule.portStart.value) else ""
  }

  function Parts(rule: Rule): seq<string> {
    [rule.protocol, PortText(rule), rule.endpointType, Join(',', Sort(rule.endpoints))]
  }

  function Key(rule: Rule): string { Join('|', Parts(rule)) }

  function Keys(rules: seq<Rule>): seq<string> {
    if rules == [] then [] else Keys(rules[..|rules| - 1]) + [Key(rules[|rules| - 1])]
  }

  function CanonicalText(rules: seq<Rule>): string {
    Join('\n', Sort(Keys(rules)))
  }

  // ----- separators cannot occur -----

  predicate Plain(s: string) {
    forall i :: 0 <= i < |s| ==> s[i] != '|' && s[i] != ',' && s[i] != '\n' && s[i] != '\0'
  }

  lemma QuadIsPlain(a: Address)
    ensures Plain(Quad(a))
  {
    DecimalRoundTrip(a / 0x100_0000);
    DecimalRoundTrip(a / 0x1_0000 % 0x100);
    DecimalRoundTrip(a / 0x100 % 0x100);
    DecimalRoundTrip(a % 0x100);
  }

  lemma CanonicalIsPlain(parse: Parser, text: string)
    requires CanonicalCIDR(parse, text)
    ensures Plain(text) && text != ""
  {
    var p := parse(text).value;
    BaseIsMember(p);
    QuadIsPlain(First(p));
    DecimalRoundTrip(p.bits);
  }

  lemma SortedEndpointsArePlain(parse: Parser, rule: Rule)
    requires AcceptedRule(parse, rule)
    ensures forall i :: 0 <= i < |Sort(rule.endpoints)| ==> Plain(Sort(rule.endpoints)[i])
  {
    SortIsSorting(rule.endpoints);
    forall i | 0 <= i < |Sort(rule.endpoints)| ensures Plain(Sort(rule.endpoints)[i]) {
      assert Sort(rule.endpoints)[i] in multiset(rule.endpoints);
      CanonicalIsPlain(parse, Sort(rule.endpoints)[i]);
    }
  }

  /** The four parts of a key hold neither the part separator nor the rule separator. */
  lemma PartsAreFree(parse: Parser, rule: Rule, c: char)
    requires AcceptedRule(parse, rule) && (c == '|' || c == '\n')
    ensures Free(c, Parts(rule))
  {
    SortedEndpointsArePlain(parse, rule);
    JoinHolds(',', Sort(rule.endpoints), c);
    DecimalRoundTrip(rule.portStart.value);
    WordsAreFree(c);
    var parts := Parts(rule);
    assert c !in parts[0] && c !in parts[1] && c !in parts[2] && c !in parts[3];
  }

  lemma WordsAreFree(c: char)
    requires c == '|' || c == '\n'
    ensures c !in "tcp" && c !in "udp" && c !in "any" && c !in "ip_prefixes"
  {
  }

  // ----- keys and rules -----

  function ReachOf(rule: Rule): Reach {
    if rule.endpointType == "any" then Anyone else Only(set e | e in rule.endpoints)
  }

  lemma SameElements(a: seq<string>, b: seq<string>)
    requires multiset(a) == multiset(b)
    ensures forall x :: x in a <==> x in b
  {
    forall x ensures x in a <==> x in b { assert x in multiset(a) <==> x in multiset(b); }
  }

  lemma {:induction false} DistinctCounts(s: seq<string>, x: string)
    requires Distinct(s)
    ensures multiset(s)[x] == if x in s then 1 else 0
  {
    if s != [] {
      var n := |s| - 1;
      DistinctCounts(s[..n], x);
      assert s == s[..n] + [s[n]];
    }
  }

  lemma DistinctWithSameElements(a: seq<string>, b: seq<string>)
    requires Distinct(a) && Distinct(b) && forall x :: x in a <==> x in b
    ensures multiset(a) == multiset(b)
  {
    forall x ensures multiset(a)[x] == multiset(b)[x] {
      DistinctCounts(a, x);
      DistinctCounts(b, x);
    }
  }

  /** Two accepted rules have the same key exactly when they open the same port to the same
      endpoints; rule UUIDs and endpoint order do not matter. */
  lemma KeyMeans(parse: Parser, r: Rule, s: Rule)
    requires AcceptedRule(parse, r) && AcceptedRule(parse, s)
    ensures Key(r) == Key(s) <==> SamePort(r, s) && ReachOf(r) == ReachOf(s)
  {
    if Key(r) == Key(s) { KeyDetermines(parse, r, s); }
    if SamePort(r, s) && ReachOf(r) == ReachOf(s) { KeyDepends(parse, r, s); }
  }

  lemma KeyDetermines(parse: Parser, r: Rule, s: Rule)
    requires AcceptedRule(parse, r) && AcceptedRule(parse, s) && Key(r) == Key(s)
    ensures SamePort(r, s) && ReachOf(r) == ReachOf(s)
  {
    PartsAreFree(parse, r, '|');
    PartsAreFree(parse, s, '|');
    JoinIsInjective('|', Parts(r), Parts(s));
    assert Parts(r)[0] == Parts(s)[0] && Parts(r)[1] == Parts(s)[1] && Parts(r)[2] == Parts(s)[2]
        && Parts(r)[3] == Parts(s)[3];
    DecimalRoundTrip(r.portStart.value);
    DecimalRoundTrip(s.portStart.value);
    if r.endpointType != "any" { EndpointsDetermined(parse, r, s); }
  }

  lemma EndpointsDetermined(parse: Parser, r: Rule, s: Rule)
    requires AcceptedRule(parse, r) && AcceptedRule(parse, s) && r.endpoints != [] && s.endpoints != []
    requires Join(',', Sort(r.endpoints)) == Join(',', Sort(s.endpoints))
    ensures forall x :: x in r.endpoints <==> x in s.endpoints
  {
    SortedEndpointsArePlain(parse, r);
    SortedEndpointsArePlain(parse, s);
    SortIsSorting(r.endpoints);
    SortIsSorting(s.endpoints);
    assert |Sort(r.endpoints)| == |multiset(r.endpoints)| && |Sort(s.endpoints)| == |multiset(s.endpoints)|;
    JoinIsInjective(',', Sort(r.endpoints), Sort(s.endpoints));
    SameElements(r.endpoints, s.endpoints);
  }

  lemma KeyDepends(parse: Parser, r: Rule, s: Rule)
    requires AcceptedRule(parse, r) && AcceptedRule(parse, s) && SamePort(r, s) && ReachOf(r) == ReachOf(s)
    ensures Key(r) == Key(s)
  {
    if r.endpointType == "any" {
      assert r.endpoints == s.endpoints;
    } else {
      forall x ensures x in r.endpoints <==> x in s.endpoints {
        assert x in ReachOf(r).prefixes <==> x in ReachOf(s).prefixes;
      }
      DistinctWithSameElements(r.endpoints, s.endpoints);
      SortForgetsOrder(r.endpoints, s.endpoints);
    }
  }

  // ----- policies -----

  lemma {:induction false} KeysAt(rules: seq<Rule>)
    ensures |Keys(rules)| == |rules| && forall i :: 0 <= i < |rules| ==> Keys(rules)[i] == Key(rules[i])
  {
    if rules != [] { KeysAt(rules[..|rules| - 1]); }
  }

  /** The mapping a policy stands for, as its graph. */
  function Graph(rules: seq<Rule>): set<(string, Outcome<int>, Reach)> {
    set r | r in rules :: (r.protocol, r.portStart, ReachOf(r))
  }

  /** An accepted policy opens each protocol and port to one endpoint set. */
  lemma GraphIsMapping(parse: Parser, rules: seq<Rule>, g: (string, Outcome<int>, Reach),
      h: (string, Outcome<int>, Reach))
    requires Accepted(parse, rules) && g in Graph(rules) && h in Graph(rules) && g.0 == h.0 && g.1 == h.1
    ensures g == h
  {
    var i :| 0 <= i < |rules| && g == (rules[i].protocol, rules[i].portStart, ReachOf(rules[i]));
    var j :| 0 <= j < |rules| && h == (rules[j].protocol, rules[j].portStart, ReachOf(rules[j]));
    assert SamePort(rules[i], rules[j]) && SamePort(rules[j], rules[i]);
  }

  /** A rule's key occurs among the keys of a policy exactly when the policy's graph holds it. */
  lemma KeyInGraph(parse: Parser, rules: seq<Rule>, r: Rule)
    requires Accepted(parse, rules) && AcceptedRule(parse, r)
    ensures Key(r) in Keys(rules) <==> (r.protocol, r.portStart, ReachOf(r)) in Graph(rules)
  {
    KeysAt(rules);
    if Key(r) in Keys(rules) {
      var i :| 0 <= i < |rules| && Keys(rules)[i] == Key(r);
      KeyMeans(parse, rules[i], r);
    }
    if (r.protocol, r.portStart, ReachOf(r)) in Graph(rules) {
      var i :| 0 <= i < |rules|
          && (r.protocol, r.portStart, ReachOf(r)) == (rules[i].protocol, rules[i].portStart, ReachOf(rules[i]));
      KeyMeans(parse, rules[i], r);
      assert Keys(rules)[i] == Key(r);
    }
  }

  lemma KeysAreDistinct(parse: Parser, rules: seq<Rule>)
    requires Accepted(parse, rules)
    ensures Distinct(Keys(rules))
  {
    KeysAt(rules);
    forall i, j | 0 <= i < j < |rules| ensures Keys(rules)[i] != Keys(rules)[j] {
      KeyMeans(parse, rules[i], rules[j]);
    }
  }

  lemma GraphCoversKeys(parse: Parser, a: seq<Rule>, b: seq<Rule>, x: string)
    requires Accepted(parse, a) && Accepted(parse, b) && Graph(a) <= Graph(b) && x in Keys(a)
    ensures x in Keys(b)
  {
    KeysAt(a);
    var i :| 0 <= i < |a| && Keys(a)[i] == x;
    assert (a[i].protocol, a[i].portStart, ReachOf(a[i])) in Graph(a);
    KeyInGraph(parse, b, a[i]);
  }

  lemma KeysCoverGraph(parse: Parser, a: seq<Rule>, b: seq<Rule>)
    requires Accepted(parse, a) && Accepted(parse, b) && forall x :: x in Keys(a) ==> x in Keys(b)
    ensures Graph(a) <= Graph(b)
  {
    KeysAt(a);
    forall g | g in Graph(a) ensures g in Graph(b) {
      var i :| 0 <= i < |a| && g == (a[i].protocol, a[i].portStart, ReachOf(a[i]));
      assert Keys(a)[i] in Keys(a);
      KeyInGraph(parse, b, a[i]);
    }
  }

  lemma SortedKeysAreFree(parse: Parser, rules: seq<Rule>)
    requires Accepted(parse, rules)
    ensures Sort(Keys(rules)) != [] && Free('\n', Sort(Keys(rules)))
  {
    KeysAt(rules);
    SortIsSorting(Keys(rules));
    assert |Sort(Keys(rules))| == |multiset(Keys(rules))| == |rules|;
    forall i | 0 <= i < |Sort(Keys(rules))| ensures '\n' !in Sort(Keys(rules))[i] {
      assert Sort(Keys(rules))[i] in multiset(Keys(rules));
      var j :| 0 <= j < |rules| && Keys(rules)[j] == Sort(Keys(rules))[i];
      PartsAreFree(parse, rules[j], '\n');
      JoinHolds('|', Parts(rules[j]), '\n');
    }
  }

  lemma TextDeterminesKeys(parse: Parser, a: seq<Rule>, b: seq<Rule>)
    requires Accepted(parse, a) && Accepted(parse, b)
    ensures CanonicalText(a) == CanonicalText(b) <==> multiset(Keys(a)) == multiset(Keys(b))
  {
    SortForgetsOrder(Keys(a), Keys(b));
    if CanonicalText(a) == CanonicalText(b) {
      SortedKeysAreFree(parse, a);
      SortedKeysAreFree(parse, b);
      JoinIsInjective('\n', Sort(Keys(a)), Sort(Keys(b)));
    }
  }

  /** Two accepted policies have the same canonical text exactly when they map the same protocol
      and port pairs to the same endpoint sets. Rule order, endpoint order and rule UUIDs never
      matter, and nothing else is forgotten. */
  lemma CanonicalTextMeansMapping(parse: Parser, a: seq<Rule>, b: seq<Rule>)
    requires Accepted(parse, a) && Accepted(parse, b)
    ensures CanonicalText(a) == CanonicalText(b) <==> Graph(a) == Graph(b)
  {
    TextDeterminesKeys(parse, a, b);
    if CanonicalText(a) == CanonicalText(b) {
      SameElements(Keys(a), Keys(b));
      KeysCoverGraph(parse, a, b);
      KeysCoverGraph(parse, b, a);
    }
    if Graph(a) == Graph(b) {
      forall x ensures x in Keys(a) <==> x in Keys(b) {
        if x in Keys(a) { GraphCoversKeys(parse, a, b, x); }
        if x in Keys(b) { GraphCoversKeys(parse, b, a, x); }
      }
      KeysAreDistinct(parse, a);
      KeysAreDistinct(parse, b);
      DistinctWithSameElements(Keys(a), Keys(b));
    }
  }

  /** Endpoint texts stand for prefixes one to one: a canonical text is recovered from the prefix
      it was parsed to. */
  lemma EndpointTextsAreFaithful(parse: Parser, x: string, y: string)
    requires CanonicalCIDR(parse, x) && CanonicalCIDR(parse, y)
    requires First(parse(x).value) == First(parse(y).value) && parse(x).value.bits == parse(y).value.bits
    ensures x == y
  {
  }

  // ----- the canonicalizer's loops -----

  method CanonicalEndpoints(parse: Parser, rule: Rule) returns (r: Outcome<seq<string>>)
    ensures r.Ok? <==> AcceptedEndpoints(parse, rule)
    ensures r.Ok? ==> r.value == Sort(rule.endpoints)
  {
    if rule.endpointType == "any" {
      return if rule.endpoints == [] then Ok([]) else Fail;
    }
    if rule.endpointType != "ip_prefixes" || rule.endpoints == [] {
      return Fail;
    }
    var ok := DistinctCanonical(parse, rule.endpoints);
    return if ok then Ok(Sort(rule.endpoints)) else Fail;
  }

  method DistinctCanonical(parse: Parser, endpoints: seq<string>) returns (ok: bool)
    ensures ok <==> Distinct(endpoints) && forall i :: 0 <= i < |endpoints| ==> CanonicalCIDR(parse, endpoints[i])
  {
    var seen: set<string> := {};
    for i := 0 to |endpoints|
      invariant forall j :: 0 <= j < i ==> endpoints[j] in seen && CanonicalCIDR(parse, endpoints[j])
      invariant forall x :: x in seen ==> exists j :: 0 <= j < i && endpoints[j] == x
      invariant forall j, k :: 0 <= j < k < i ==> endpoints[j] != endpoints[k]
    {
      if !CanonicalCIDR(parse, endpoints[i]) || endpoints[i] in seen {
        return false;
      }
      seen := seen + {endpoints[i]};
    }
    return true;
  }

  function PortKey(rule: Rule): string { rule.protocol + "|" + PortText(rule) }

  lemma PortKeyMeansPort(r: Rule, s: Rule)
    requires (r.protocol == "tcp" || r.protocol == "udp") && (s.protocol == "tcp" || s.protocol == "udp")
    requires r.portStart.Ok? && s.portStart.Ok? && 1 <= r.portStart.value && 1 <= s.portStart.value
    ensures PortKey(r) == PortKey(s) <==> SamePort(r, s)
  {
    DecimalRoundTrip(r.portStart.value);
    DecimalRoundTrip(s.portStart.value);
    if PortKey(r) == PortKey(s) {
      assert PortKey(r)[..3] == r.protocol && PortKey(s)[..3] == s.protocol;
      assert PortKey(r)[4..] == PortText(r) && PortKey(s)[4..] == PortText(s);
    }
  }

  /** One rule: its checks and its key. */
  method CanonicalRule(parse: Parser, rule: Rule) returns (r: Outcome<string>)
    ensures r.Ok? <==> AcceptedRule(parse, rule)
    ensures r.Ok? ==> r.value == Key(rule)
  {
    if rule.direction != "inbound" || (rule.protocol != "tcp" && rule.protocol != "udp") {
      return Fail;
    }
    if rule.portStart.Fail? || rule.portEnd != rule.portStart || rule.portStart.value < 1
        || rule.portStart.value > 65535 {
      return Fail;
    }
    var endpoints := CanonicalEndpoints(parse, rule);
    if endpoints.Fail? {
      return Fail;
    }
    return Ok(Join('|', [rule.protocol, PortText(rule), rule.endpointType, Join(',', endpoints.value)]));
  }

  /** The canonicalizer accepts exactly the accepted lists and returns their canonical text. Its
      further check for a repeated key can never fire: distinct ports have distinct keys. */
  method Canonicalize(parse: Parser, rules: seq<Rule>) returns (r: Outcome<string>)
    ensures r.Ok? <==> Accepted(parse, rules)
    ensures r.Ok? ==> r.value == CanonicalText(rules)
  {
    if rules == [] {
      return Fail;
    }
    var keys: seq<string> := [];
    var seen: set<string> := {};
    for i := 0 to |rules|
      invariant keys == Keys(rules[..i])
      invariant forall j :: 0 <= j < i ==> PortKey(rules[j]) in seen && AcceptedRule(parse, rules[j])
      invariant forall x :: x in seen ==> exists j :: 0 <= j < i && PortKey(rules[j]) == x
      invariant forall j, k :: 0 <= j < k < i ==> !SamePort(rules[j], rules[k])
    {
      var key := CanonicalRule(parse, rules[i]);
      if key.Fail? {
        return Fail;
      }
      forall j | 0 <= j < i ensures PortKey(rules[j]) == PortKey(rules[i]) <==> SamePort(rules[j], rules[i]) {
        PortKeyMeansPort(rules[j], rules[i]);
      }
      if PortKey(rules[i]) in seen {
        return Fail;
      }
      seen := seen + {PortKey(rules[i])};
      keys := keys + [key.value];
      assert rules[..i + 1][..i] == rules[..i];
    }
    assert rules[..|rules|] == rules;
    return Ok(Join('\n', Sort(keys)));
  }
}

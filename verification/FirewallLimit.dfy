/** The per-VM firewall limit: acknowledged attachments are remembered for a while, because the
    firewall listing may lag behind them. */
module FirewallLimit {
  import opened Counting
  import opened Text

  const TTL := 120
  const DEFAULT_LIMIT := 3

  function Limit(configured: int): int { if configured >= 1 then configured else DEFAULT_LIMIT }

  datatype Resource = Resource(kind: string, uuid: string)
  datatype Firewall = Firewall(uuid: string, resources: seq<Resource>)

  /** Acknowledged attachments by VM and firewall, in lower case, with their times. */
  type Memory = map<string, map<string, int>>

  function Of(m: Memory, vm: string): map<string, int> { if vm in m then m[vm] else map[] }

  /** An empty inner map is dropped. */
  function Put(m: Memory, vm: string, inner: map<string, int>): Memory {
    if inner == map[] then m - {vm} else m[vm := inner]
  }

  function Remembering(m: Memory, vm: string, firewall: string, now: int): Memory {
    m[Lower(vm) := Of(m, Lower(vm))[Lower(firewall) := now]]
  }

  function Forgetting(m: Memory, vm: string, firewall: string): Memory {
    Put(m, Lower(vm), Of(m, Lower(vm)) - {Lower(firewall)})
  }

  function Unexpired(inner: map<string, int>, now: int): map<string, int> {
    map f | f in inner && now - inner[f] < TTL :: inner[f]
  }

  function Expiring(m: Memory, vm: string, now: int): Memory {
    Put(m, Lower(vm), Unexpired(Of(m, Lower(vm)), now))
  }

  predicate Lists(item: Firewall, vm: string) {
    exists k :: 0 <= k < |item.resources| && EqualFold(item.resources[k].kind, "vm")
                && EqualFold(item.resources[k].uuid, vm)
  }

  function Listed(items: seq<Firewall>, vm: string): set<string> {
    set i | 0 <= i < |items| && Lists(items[i], vm) :: Lower(items[i].uuid)
  }

  /** The capacity check: a listed firewall passes, then a remembered one, then the count decides. */
  predicate HasCapacity(items: seq<Firewall>, m: Memory, firewall: string, vm: string, now: int, limit: int) {
    var listed := Listed(items, vm);
    var counted := listed + Unexpired(Of(m, Lower(vm)), now).Keys;
    Lower(firewall) in counted || |counted| + 1 <= limit
  }

  /** The check drops expired entries of the VM, unless the listing already settles it. */
  function Checking(m: Memory, items: seq<Firewall>, firewall: string, vm: string, now: int): Memory {
    if Lower(firewall) in Listed(items, vm) then m else Expiring(m, vm, now)
  }

  // ----- the controller's memory -----

  class Tracker {
    var memory: Memory
    const limit: int

    constructor (configured: int)
      ensures memory == map[] && limit == Limit(configured)
    {
      memory := map[];
      limit := Limit(configured);
    }

    method Remember(vm: string, firewall: string, now: int)
      modifies this
      ensures memory == Remembering(old(memory), vm, firewall, now)
    {
      var key := Lower(vm);
      if key !in memory {
        memory := memory[key := map[]];
      }
      memory := memory[key := memory[key][Lower(firewall) := now]];
    }

    method Forget(vm: string, firewall: string)
      modifies this
      ensures memory == Forgetting(old(memory), vm, firewall)
    {
      var key := Lower(vm);
      if key in memory {
        memory := memory[key := memory[key] - {Lower(firewall)}];
        if memory[key] == map[] {
          memory := memory - {key};
        }
      }
    }

    /** The unexpired remembered firewalls of a VM; expired ones are dropped. */
    method Recent(vm: string, now: int) returns (r: set<string>)
      modifies this
      ensures memory == Expiring(old(memory), vm, now)
      ensures r == Unexpired(Of(old(memory), Lower(vm)), now).Keys
    {
      var key := Lower(vm);
      if key in memory {
        memory := memory[key := Unexpired(memory[key], now)];
        r := memory[key].Keys;
        if memory[key] == map[] {
          memory := memory - {key};
        }
      } else {
        r := {};
      }
    }

    method Capacity(items: seq<Firewall>, firewall: string, vm: string, now: int) returns (ok: bool)
      modifies this
      ensures ok == HasCapacity(items, old(memory), firewall, vm, now, limit)
      ensures memory == Checking(old(memory), items, firewall, vm, now)
    {
      var counted := Scan(items, vm);
      if Lower(firewall) in counted {
        return true;
      }
      var recent := Recent(vm, now);
      counted := counted + recent;
      if Lower(firewall) in counted {
        return true;
      }
      return |counted| + 1 <= limit;
    }
  }

  method Scan(items: seq<Firewall>, vm: string) returns (counted: set<string>)
    ensures counted == Listed(items, vm)
  {
    counted := {};
    for i := 0 to |items|
      invariant counted == set j | 0 <= j < i && Lists(items[j], vm) :: Lower(items[j].uuid)
    {
      var resources := items[i].resources;
      var found := false;
      for k := 0 to |resources|
        invariant found <==> exists j :: 0 <= j < k && EqualFold(resources[j].kind, "vm")
                                         && EqualFold(resources[j].uuid, vm)
      {
        found := found || (EqualFold(resources[k].kind, "vm") && EqualFold(resources[k].uuid, vm));
      }
      if found {
        counted := counted + {Lower(items[i].uuid)};
      }
    }
  }

  // ----- runs -----

  /** The real relations with the time each was last acknowledged, and what is remembered. */
  datatype World = World(now: int, attached: map<(string, string), int>, memory: Memory)

  datatype Event =
    // acknowledged exactly when committed
    | Attach(vm: string, firewall: string, items: seq<Firewall>, committed: bool)
    // committed, but reported as an error
    | AttachUnanswered(vm: string, firewall: string, items: seq<Firewall>)
    | Detach(vm: string, firewall: string, committed: bool, answered: bool)
    | Advance(seconds: nat)
    // the process forgets what it remembered
    | Restart

  function FirewallsOf(w: World, vm: string): set<string> {
    set r | r in w.attached && r.0 == vm :: r.1
  }

  function Step(w: World, e: Event, limit: int): World {
    match e
    case Attach(vm, firewall, items, committed) =>
      var checked := w.(memory := Checking(w.memory, items, firewall, vm, w.now));
      if HasCapacity(items, w.memory, firewall, vm, w.now, limit) && committed then
        checked.(attached := w.attached[(Lower(vm), Lower(firewall)) := w.now],
                 memory := Remembering(checked.memory, vm, firewall, w.now))
      else checked
    case AttachUnanswered(vm, firewall, items) =>
      if HasCapacity(items, w.memory, firewall, vm, w.now, limit)
      then w.(attached := w.attached[(Lower(vm), Lower(firewall)) := w.now]) else w
    case Detach(vm, firewall, committed, answered) =>
      w.(attached := if committed then w.attached - {(Lower(vm), Lower(firewall))} else w.attached,
         memory := if committed && answered then Forgetting(w.memory, vm, firewall) else w.memory)
    case Advance(seconds) => w.(now := w.now + seconds)
    case Restart => w.(memory := map[])
  }

  /** The listing invents no relation and shows every relation acknowledged at least the TTL ago. */
  ghost predicate Faithful(w: World, items: seq<Firewall>) {
    && (forall vm, f :: f in Listed(items, vm) ==> (Lower(vm), f) in w.attached)
    && (forall vm, f :: (Lower(vm), f) in w.attached && w.attached[(Lower(vm), f)] + TTL <= w.now ==>
         f in Listed(items, vm))
  }

  /** Every real relation is old enough that the listing must show it. */
  predicate Aged(w: World) {
    forall r :: r in w.attached ==> w.attached[r] + TTL <= w.now
  }

  /** Attaches read a faithful listing and are answered, and the process restarts only when nothing
      that it forgets is still needed. */
  ghost predicate Ordinary(w: World, e: Event) {
    match e
    case Attach(_, _, items, _) => Faithful(w, items)
    case AttachUnanswered(_, _, _) => false
    case Restart => Aged(w)
    case _ => true
  }

  /** Every real relation is old enough to be listed, or still remembered. */
  ghost predicate Covered(w: World) {
    forall vm, f :: (vm, f) in w.attached ==>
      w.attached[(vm, f)] + TTL <= w.now || (f in Of(w.memory, vm) && w.attached[(vm, f)] <= Of(w.memory, vm)[f])
  }

  /** What is attached to the VM or remembered for it. */
  function Held(w: World, vm: string): set<string> { FirewallsOf(w, vm) + Of(w.memory, vm).Keys }

  function Counted(w: World, items: seq<Firewall>, vm: string): set<string> {
    Listed(items, vm) + Unexpired(Of(w.memory, Lower(vm)), w.now).Keys
  }

  /** At a faithful check, everything attached to the VM is counted. */
  lemma CheckCountsAll(w: World, items: seq<Firewall>, vm: string)
    requires Covered(w) && Faithful(w, items)
    ensures FirewallsOf(w, Lower(vm)) <= Listed(items, vm) + Unexpired(Of(w.memory, Lower(vm)), w.now).Keys
  {
    forall f | f in FirewallsOf(w, Lower(vm))
        ensures f in Listed(items, vm) + Unexpired(Of(w.memory, Lower(vm)), w.now).Keys {
      assert (Lower(vm), f) in w.attached;
    }
  }

  lemma AttachKeepsCovered(w: World, e: Event, limit: int)
    requires Covered(w) && e.Attach?
    ensures Covered(Step(w, e, limit))
  {
    var after := Step(w, e, limit);
    forall vm, f | (vm, f) in after.attached
      ensures after.attached[(vm, f)] + TTL <= after.now
              || (f in Of(after.memory, vm) && after.attached[(vm, f)] <= Of(after.memory, vm)[f])
    {
      if (vm, f) in w.attached && !(w.attached[(vm, f)] + TTL <= w.now) {
        assert f in Of(w.memory, vm) && w.now - Of(w.memory, vm)[f] < TTL;
      }
    }
  }

  lemma DetachKeepsCovered(w: World, e: Event, limit: int)
    requires Covered(w) && (e.Detach? || e.Advance? || (e.Restart? && Aged(w)))
    ensures Covered(Step(w, e, limit))
  {
    var after := Step(w, e, limit);
    forall vm, f | (vm, f) in after.attached
      ensures after.attached[(vm, f)] + TTL <= after.now
              || (f in Of(after.memory, vm) && after.attached[(vm, f)] <= Of(after.memory, vm)[f])
    {
      assert (vm, f) in w.attached;
    }
  }

  lemma FewerAttached(w: World, after: World, vm: string)
    requires forall r :: r in after.attached ==> r in w.attached
    ensures FirewallsOf(after, vm) <= FirewallsOf(w, vm)
  {
    forall f | f in FirewallsOf(after, vm) ensures f in FirewallsOf(w, vm) { assert (vm, f) in w.attached; }
  }

  lemma ExpiringShrinks(m: Memory, of: string, now: int, vm: string)
    ensures Of(Expiring(m, of, now), vm).Keys <= Of(m, vm).Keys
  {
  }

  lemma ForgettingShrinks(m: Memory, of: string, firewall: string, vm: string)
    ensures Of(Forgetting(m, of, firewall), vm).Keys <= Of(m, vm).Keys
  {
  }

  /** Detaches, clock advances, restarts and refused or failed attaches only shrink what a VM holds. */
  lemma OthersShrink(w: World, e: Event, limit: int, vm: string)
    requires e.Detach? || e.Advance? || e.Restart?
             || (e.Attach? && !(HasCapacity(e.items, w.memory, e.firewall, e.vm, w.now, limit) && e.committed))
    ensures Held(Step(w, e, limit), vm) <= Held(w, vm)
  {
    FewerAttached(w, Step(w, e, limit), vm);
    if e.Attach? { ExpiringShrinks(w.memory, e.vm, w.now, vm); }
    if e.Detach? { ForgettingShrinks(w.memory, e.vm, e.firewall, vm); }
  }

  lemma CheckingLeavesOthers(m: Memory, items: seq<Firewall>, firewall: string, of: string, now: int, vm: string)
    requires vm != Lower(of)
    ensures Of(Checking(m, items, firewall, of, now), vm) == Of(m, vm)
  {
  }

  lemma RememberingLeavesOthers(m: Memory, of: string, firewall: string, now: int, vm: string)
    requires vm != Lower(of)
    ensures Of(Remembering(m, of, firewall, now), vm) == Of(m, vm)
  {
  }

  lemma AttachElsewhere(w: World, e: Event, limit: int, vm: string)
    requires e.Attach? && vm != Lower(e.vm)
    ensures Held(Step(w, e, limit), vm) <= Held(w, vm)
  {
    var after := Step(w, e, limit);
    forall f | f in FirewallsOf(after, vm) ensures f in FirewallsOf(w, vm) { assert (vm, f) in w.attached; }
    var checked := Checking(w.memory, e.items, e.firewall, e.vm, w.now);
    CheckingLeavesOthers(w.memory, e.items, e.firewall, e.vm, w.now, vm);
    RememberingLeavesOthers(checked, e.vm, e.firewall, w.now, vm);
  }

  lemma CountedIsHeld(w: World, items: seq<Firewall>, vm: string)
    requires Faithful(w, items)
    ensures Counted(w, items, vm) <= Held(w, Lower(vm))
  {
    forall f | f in Listed(items, vm) ensures f in FirewallsOf(w, Lower(vm)) { assert (Lower(vm), f) in w.attached; }
  }

  /** Attaching a firewall that is listed changes nothing that the VM holds. */
  lemma AttachListed(w: World, e: Event, limit: int)
    requires e.Attach? && Faithful(w, e.items) && Lower(e.firewall) in Listed(e.items, e.vm)
    ensures Held(Step(w, e, limit), Lower(e.vm)) <= Held(w, Lower(e.vm))
  {
    var after := Step(w, e, limit);
    assert (Lower(e.vm), Lower(e.firewall)) in w.attached;
    assert Lower(e.firewall) in FirewallsOf(w, Lower(e.vm));
    FewerAttached(w, after, Lower(e.vm));
  }

  lemma AttachHolds(w: World, e: Event, limit: int)
    requires Covered(w) && e.Attach? && Lower(e.firewall) !in Listed(e.items, e.vm) && Faithful(w, e.items)
             && e.committed && HasCapacity(e.items, w.memory, e.firewall, e.vm, w.now, limit)
    ensures Held(Step(w, e, limit), Lower(e.vm)) <= Counted(w, e.items, e.vm) + {Lower(e.firewall)}
  {
    CheckCountsAll(w, e.items, e.vm);
    var after := Step(w, e, limit);
    forall f | f in FirewallsOf(after, Lower(e.vm)) && f != Lower(e.firewall) ensures f in FirewallsOf(w, Lower(e.vm)) {
      assert (Lower(e.vm), f) in w.attached;
    }
  }

  lemma FitsLimit(after: set<string>, counted: set<string>, held: set<string>, f: string, limit: int)
    requires after <= counted + {f} && counted <= held && |held| <= limit && (f in counted || |counted| + 1 <= limit)
    ensures |after| <= limit
  {
    SubsetIsSmaller(after, counted + {f});
    SubsetIsSmaller(counted, held);
    if f in counted { assert counted + {f} == counted; }
  }

  lemma AttachFits(w: World, e: Event, limit: int)
    requires Covered(w) && e.Attach? && Faithful(w, e.items) && e.committed
             && HasCapacity(e.items, w.memory, e.firewall, e.vm, w.now, limit)
    requires |Held(w, Lower(e.vm))| <= limit
    ensures |Held(Step(w, e, limit), Lower(e.vm))| <= limit
  {
    if Lower(e.firewall) in Listed(e.items, e.vm) {
      AttachListed(w, e, limit);
      SubsetIsSmaller(Held(Step(w, e, limit), Lower(e.vm)), Held(w, Lower(e.vm)));
      return;
    }
    AttachHolds(w, e, limit);
    CountedIsHeld(w, e.items, e.vm);
    FitsLimit(Held(Step(w, e, limit), Lower(e.vm)), Counted(w, e.items, e.vm), Held(w, Lower(e.vm)),
        Lower(e.firewall), limit);
  }

  lemma StepKeepsLimit(w: World, e: Event, limit: int, vm: string)
    requires Covered(w) && Ordinary(w, e) && |Held(w, vm)| <= limit
    ensures |Held(Step(w, e, limit), vm)| <= limit
  {
    if e.Attach? && vm == Lower(e.vm) && HasCapacity(e.items, w.memory, e.firewall, e.vm, w.now, limit) && e.committed {
      AttachFits(w, e, limit);
    } else {
      if e.Attach? && vm != Lower(e.vm) { AttachElsewhere(w, e, limit, vm); } else { OthersShrink(w, e, limit, vm); }
      SubsetIsSmaller(Held(Step(w, e, limit), vm), Held(w, vm));
    }
  }

  function Run(w: World, events: seq<Event>, limit: int): World
    decreases |events|
  {
    if events == [] then w else Run(Step(w, events[0], limit), events[1..], limit)
  }

  ghost predicate OrdinaryRun(w: World, events: seq<Event>, limit: int)
    decreases |events|
  {
    events == [] || (Ordinary(w, events[0]) && OrdinaryRun(Step(w, events[0], limit), events[1..], limit))
  }

  /** Over every sequence of attaches, detaches, clock advances and restarts with a faithful
      listing, a VM that starts within the limit never exceeds it. Detaches may fail or go
      unanswered; a restart needs every relation to be old enough to be listed. */
  lemma {:induction false} LimitIsNeverExceeded(w: World, events: seq<Event>, limit: int, vm: string)
    requires Covered(w) && |Held(w, vm)| <= limit && OrdinaryRun(w, events, limit)
    ensures |Held(Run(w, events, limit), vm)| <= limit && |FirewallsOf(Run(w, events, limit), vm)| <= limit
    decreases |events|
  {
    if events == [] {
      SubsetIsSmaller(FirewallsOf(w, vm), Held(w, vm));
    } else {
      var e := events[0];
      if e.Attach? { AttachKeepsCovered(w, e, limit); } else { DetachKeepsCovered(w, e, limit); }
      StepKeepsLimit(w, e, limit, vm);
      LimitIsNeverExceeded(Step(w, e, limit), events[1..], limit, vm);
    }
  }

  // ----- why the hypotheses are needed -----

  lemma ShowsSecond(stale: seq<Firewall>)
    requires |stale| == 2 && stale[0] == Firewall("b", [Resource("vm", "v")])
    ensures Lower("b") in Listed(stale, "v")
  {
    assert EqualFold(stale[0].resources[0].kind, "vm") && EqualFold(stale[0].resources[0].uuid, "v");
    assert Lists(stale[0], "v");
  }

  /** A listing that still shows a detached relation lets its firewall back in above the limit. */
  lemma StaleListingExceeds()
    ensures var w := World(1000, map[("v", "a") := 0], map[]);
            var stale := [Firewall("b", [Resource("vm", "v")]), Firewall("a", [Resource("vm", "v")])];
            |FirewallsOf(w, "v")| <= 1 && |FirewallsOf(Step(w, Attach("v", "b", stale, true), 1), "v")| == 2
  {
    var w := World(1000, map[("v", "a") := 0], map[]);
    var stale := [Firewall("b", [Resource("vm", "v")]), Firewall("a", [Resource("vm", "v")])];
    LowerOne("v");
    LowerOne("b");
    ShowsSecond(stale);
    var after := Step(w, Attach("v", "b", stale, true), 1);
    assert after.attached == w.attached[("v", "b") := 1000];
    OneAndTwo(w, after);
  }

  /** An attachment that committed without an answer is neither remembered nor listed yet, so the
      next one goes above the limit although the listing invents nothing. */
  lemma UnansweredAttachExceeds()
    ensures var w := World(1000, map[], map[]);
            var once := Step(w, AttachUnanswered("v", "a", []), 1);
            |FirewallsOf(w, "v")| <= 1 && |FirewallsOf(Step(once, Attach("v", "b", [], true), 1), "v")| == 2
  {
    var w := World(1000, map[], map[]);
    LowerOne("v");
    LowerOne("a");
    LowerOne("b");
    assert FirewallsOf(w, "v") == {};
    assert Listed([], "v") == {} && Unexpired(map[], 1000) == map[];
    var once := Step(w, AttachUnanswered("v", "a", []), 1);
    assert once.attached == map[("v", "a") := 1000];
    var twice := Step(once, Attach("v", "b", [], true), 1);
    assert Listed([], "v") + Unexpired(Of(once.memory, "v"), 1000).Keys == {};
    assert twice.attached == map[("v", "a") := 1000, ("v", "b") := 1000];
    assert FirewallsOf(twice, "v") == {"a", "b"} by { TwoOf(twice); }
  }

  /** A restart forgets an acknowledged attachment that the listing need not show yet, so the next
      one goes above the limit although every listing is faithful and every attach is answered. */
  lemma RestartExceeds()
    ensures var w := World(1000, map[], map[]);
            var once := Step(w, Attach("v", "a", [], true), 1);
            var restarted := Step(once, Restart, 1);
            && Ordinary(w, Attach("v", "a", [], true)) && !Aged(once) && Faithful(restarted, [])
            && |FirewallsOf(once, "v")| <= 1 && |FirewallsOf(Step(restarted, Attach("v", "b", [], true), 1), "v")| == 2
  {
    var w := World(1000, map[], map[]);
    LowerOne("v");
    LowerOne("a");
    LowerOne("b");
    assert forall vm :: Listed([], vm) == {};
    FirstAttach(w, "a");
    var once := Step(w, Attach("v", "a", [], true), 1);
    assert ("v", "a") in once.attached && once.attached[("v", "a")] + TTL > once.now;
    var restarted := Step(once, Restart, 1);
    FirstAttach(restarted, "b");
    OneAndTwo(once, Step(restarted, Attach("v", "b", [], true), 1));
  }

  /** With nothing listed and nothing remembered, one more attachment passes. */
  lemma FirstAttach(w: World, firewall: string)
    requires w.memory == map[] && Lower("v") == "v" && Lower(firewall) == firewall
    ensures Step(w, Attach("v", firewall, [], true), 1).attached == w.attached[("v", firewall) := w.now]
  {
    assert Listed([], "v") + Unexpired(Of(w.memory, "v"), w.now).Keys == {};
  }

  lemma LowerOne(s: string)
    requires |s| == 1 && 'a' <= s[0] <= 'z'
    ensures Lower(s) == s
  {
  }

  lemma OneAndTwo(w: World, after: World)
    requires w.attached.Keys == {("v", "a")} && after.attached.Keys == {("v", "a"), ("v", "b")}
    ensures |FirewallsOf(w, "v")| <= 1 && |FirewallsOf(after, "v")| == 2
  {
    assert ("v", "a") in w.attached;
    assert FirewallsOf(w, "v") == {"a"};
    TwoOf(after);
  }

  lemma TwoOf(w: World)
    requires w.attached.Keys == {("v", "a"), ("v", "b")}
    ensures FirewallsOf(w, "v") == {"a", "b"}
  {
    assert ("v", "a") in w.attached && ("v", "b") in w.attached;
  }
}

/** One destroy pass: addresses first, then virtual machines, then firewalls, one step per call. */
module Teardown {
  import opened Outcomes
  import opened Text
  import opened Ledger
  import opened ControllerPass
  import opened RemovalDrivers
  import opened CreateDrivers
  import opened Places
  import opened SlotOrder

  /** A listed public address; its name is empty until the cluster has named it. */
  datatype Address = Address(name: string, address: string, attachedTo: string)

  /** What one destroy pass listed: addresses and VMs by place, and the two firewalls. */
  datatype Listing = Listing(addresses: seq<Outcome<Address>>, vms: seq<Outcome<string>>,
                             bastionFirewall: Outcome<FirewallView>, nodeFirewall: Outcome<FirewallView>)

  function PlaceAt(n: nat): Place {
    if n == 0 then Bastion else ControlPlane(n - 1)
  }

  predicate Sized(l: Listing) {
    |l.addresses| == |l.vms| && 1 <= |l.vms| <= 10
  }

  predicate NoAddress(l: Listing) { forall n :: 0 <= n < |l.addresses| ==> l.addresses[n].Fail? }

  predicate NoVM(l: Listing) { forall n :: 0 <= n < |l.vms| ==> l.vms[n].Fail? }

  predicate VMsTerminal(s: Status, l: Listing)
    requires Sized(l)
  {
    forall n: nat :: n < |l.vms| && VMRemovalKey(PlaceAt(n)) in s.removals ==>
          s.removals[VMRemovalKey(PlaceAt(n))].phase == Absent
  }

  /** The bounded wait for a VM's address, kept per VM for the life of the process. */
  class WaitBook {
    var since: map<string, int>

    constructor ()
      ensures since == map[]
    {
      since := map[];
    }

    method Pending(vm: string, now: int, bound: nat) returns (pending: bool)
      modifies this
      ensures since == if Lower(vm) in old(since) then old(since) else old(since)[Lower(vm) := now]
      ensures pending <==> now - since[Lower(vm)] < bound
    {
      var key := Lower(vm);
      if key !in since {
        since := since[key := now];
      }
      pending := now - since[key] < bound;
    }
  }

  predicate WaitOver(since: map<string, int>, vm: string, now: int, bound: nat) {
    Lower(vm) in since && since[Lower(vm)] + bound <= now
  }

  /** Why a VM removal receipt may be written for the first time: no owned address is listed, and
      this VM's address slot has a removal receipt or the bounded wait for it is over. */
  ghost predicate VMDue(key: string, basis: Status, l: Listing, since: map<string, int>, now: int, bound: nat)
    requires Sized(l)
  {
    && NoAddress(l)
    && exists n: nat :: n < |l.vms| && key == VMRemovalKey(PlaceAt(n)) && l.vms[n].Ok?
                        && (AddressRemovalKey(PlaceAt(n)) in basis.removals
                           || WaitOver(since, l.vms[n].value, now, bound))
  }

  /** What surrounds a pass: the ledger its trace starts from, the ledger the destroy step started
      from, its listing and the bounded wait. */
  datatype Scene = Scene(start: Status, basis: Status, listing: Listing, since: map<string, int>, now: int, bound: nat)

  ghost predicate InOrder(scene: Scene, marks: seq<Mark>, lo: nat, i: nat)
    requires Sized(scene.listing) && lo <= i < |marks|
  {
    match marks[i]
    case Wrote(op, _) =>
      && !op.PersistRollback?
      && (op.EnsureVMRemoval? && op.key !in scene.basis.removals ==>
            VMDue(op.key, scene.basis, scene.listing, scene.since, scene.now, scene.bound))
    case Called(slot, _) =>
      slot.RemovalSlot? && slot.action == DeleteFirewall ==>
        NoAddress(scene.listing) && NoVM(scene.listing) && VMsTerminal(scene.basis, scene.listing)
            && FreeAndIssued(scene.start, marks, lo, i, slot.key)
    case _ => true
  }

  ghost predicate TornDown(scene: Scene, a: seq<Mark>, b: seq<Mark>)
    requires Sized(scene.listing)
  {
    a <= b && forall i: nat :: |a| <= i < |b| ==> InOrder(scene, b, |a|, i)
  }

  lemma CalmThen(scene: Scene, a: seq<Mark>, b: seq<Mark>, c: seq<Mark>)
    requires Sized(scene.listing) && Calm(a, b) && TornDown(scene, b, c)
    ensures TornDown(scene, a, c)
  {
    forall i: nat | |a| <= i < |c| ensures InOrder(scene, c, |a|, i) {
      if i < |b| {
        assert c[i] == b[i];
      } else {
        assert InOrder(scene, c, |b|, i);
        if c[i].Called? && c[i].slot.RemovalSlot? && c[i].slot.action == DeleteFirewall {
          FreeStays(scene.start, c, c, |b|, |a|, i, c[i].slot.key);
        }
      }
    }
  }

  lemma CalmIsInOrder(scene: Scene, a: seq<Mark>, b: seq<Mark>)
    requires Sized(scene.listing) && Calm(a, b)
    ensures TornDown(scene, a, b)
  {
    forall i: nat | |a| <= i < |b| ensures InOrder(scene, b, |a|, i) {
      assert !(b[i].Wrote? && WritesVMReceipt(b[i].op));
    }
  }

  lemma RemovingIsCalm(start: Status, a: seq<Mark>, b: seq<Mark>, kind: RemovalKind, key: string)
    requires Removes(start, a, b, kind, key) && kind != FirewallRemoval
    ensures Calm(a, b)
  {
    forall i: nat | |a| <= i < |b|
      ensures !(b[i].Wrote? && WritesVMReceipt(b[i].op))
              && !(b[i].Called? && b[i].slot.RemovalSlot? && b[i].slot.action == DeleteFirewall)
    {
      assert Fits(start, kind, key, b, |a|, i);
    }
  }

  // ----- the phases of one pass -----

  /** Deletions already under way are only observed, and end the pass. */
  method ObserveDeletions(p: Pass, plan: Plan, l: Listing) returns (go: bool)
    requires p.Fine() && Sized(l)
    modifies p`marks, p.keeper`status, p.keeper.file`status
    ensures p.Fine() && Calm(old(p.marks), p.marks)
    ensures go ==> p.marks == old(p.marks) && p.keeper.status == old(p.keeper.status)
  {
    for n := 0 to 2 * |l.vms|
      invariant p.marks == old(p.marks) && p.Fine() && p.keeper.status == old(p.keeper.status)
    {
      var m := if n < |l.vms| then n else n - |l.vms|;
      var key := VMRemovalKey(PlaceAt(m));
      var wanted := if n < |l.vms| then VMIssued else VMIntent;
      if key in p.keeper.status.removals && p.keeper.status.removals[key].phase == wanted
          && (wanted == VMIssued || l.vms[m].Fail?) {
        var _ := Observe(p, key, VMRemoval, plan.spacing);
        RemovingIsCalm(p.start, old(p.marks), p.marks, VMRemoval, key);
        return false;
      }
    }
    return true;
  }

  /** One address slot: an unlisted one is observed to the end, a listed one is named or driven
      one step further, which ends the pass. */
  method RemoveAddress(p: Pass, plan: Plan, place: Place, item: Outcome<Address>) returns (go: bool)
    requires p.Fine() && Known(place)
    modifies p`marks, p.keeper`status, p.keeper.file`status
    ensures p.Fine() && Calm(old(p.marks), p.marks)
    ensures go ==> item.Fail? && OnlyEdits(old(p.keeper.status), p.keeper.status, AddressRemovalKey(place))
  {
    var key := AddressRemovalKey(place);
    var recorded := key in p.keeper.status.removals;
    if item.Fail? {
      if recorded && p.keeper.status.removals[key].kind != FloatingIPRemoval {
        return false;
      }
      if !recorded || p.keeper.status.removals[key].phase == Absent {
        return true;
      }
      var terminal := ObserveTwice(p, key, FloatingIPRemoval, plan.spacing);
      RemovingIsCalm(p.start, old(p.marks), p.marks, FloatingIPRemoval, key);
      var readable: bool := *;
      return terminal || readable;
    }
    if recorded && p.keeper.status.removals[key].phase == Absent {
      return false;
    }
    if item.value.name == "" {
      var resource: string, vm: string := *, *;
      NameFirst(p, plan, place, resource, vm);
      return false;
    }
    if !recorded {
      recorded := p.Persist(EnsureFloatingIPRemoval(key, item.value.name, item.value.address, item.value.attachedTo));
    }
    if recorded {
      ghost var before := p.marks;
      var _ := DriveRemoval(p, key, FloatingIPRemoval, plan.spacing);
      RemovingIsCalm(p.start, before, p.marks, FloatingIPRemoval, key);
      assert forall i: nat :: |old(p.marks)| <= i < |before| ==> p.marks[i] == before[i];
    }
    return false;
  }

  method NameFirst(p: Pass, plan: Plan, place: Place, resource: string, vm: string)
    requires p.Fine() && Known(place)
    modifies p`marks, p.keeper`status, p.keeper.file`status
    ensures p.Fine() && Calm(old(p.marks), p.marks)
  {
    var _ := EnsureAddressName(p, UpdateKey(place), resource, plan.nameHash(resource), vm);
  }

  /** VM receipts survive the address phase: only address receipts were edited. */
  predicate AddressEditsOnly(s: Status, t: Status) {
    && t.removals.Keys == s.removals.Keys
    && forall n: nat :: n < 10 && VMRemovalKey(PlaceAt(n)) in s.removals ==>
         t.removals[VMRemovalKey(PlaceAt(n))] == s.removals[VMRemovalKey(PlaceAt(n))]
  }

  lemma EditedAddress(s: Status, t: Status, u: Status, place: Place)
    requires Known(place) && AddressEditsOnly(s, t) && OnlyEdits(t, u, AddressRemovalKey(place))
    ensures AddressEditsOnly(s, u)
  {
    forall n: nat | n < 10 && VMRemovalKey(PlaceAt(n)) in s.removals
      ensures u.removals[VMRemovalKey(PlaceAt(n))] == s.removals[VMRemovalKey(PlaceAt(n))]
    {
      RemovalKeysDiffer(PlaceAt(n), place);
    }
  }

  method RemoveAddresses(p: Pass, plan: Plan, l: Listing) returns (go: bool)
    requires p.Fine() && Sized(l)
    modifies p`marks, p.keeper`status, p.keeper.file`status
    ensures p.Fine() && Calm(old(p.marks), p.marks)
    ensures go ==> NoAddress(l) && AddressEditsOnly(old(p.keeper.status), p.keeper.status)
  {
    for n := 0 to |l.addresses|
      invariant p.Fine() && Calm(old(p.marks), p.marks) && AddressEditsOnly(old(p.keeper.status), p.keeper.status)
      invariant forall m :: 0 <= m < n ==> l.addresses[m].Fail?
    {
      ghost var marks, status := p.marks, p.keeper.status;
      go := RemoveAddress(p, plan, PlaceAt(n), l.addresses[n]);
      CalmTwice(old(p.marks), marks, p.marks);
      if !go {
        return false;
      }
      EditedAddress(old(p.keeper.status), status, p.keeper.status, PlaceAt(n));
    }
    return true;
  }

  /** The first listed VM gets its removal receipt, if its address is accounted for, and one step
      of its deletion. */
  method RemoveVM(p: Pass, plan: Plan, book: WaitBook, n: nat, firewall: string, ghost basis: Status, l: Listing,
      now: int, bound: nat)
    requires p.Fine() && Sized(l) && n < |l.vms| && l.vms[n].Ok? && NoAddress(l) && 0 < bound
    requires AddressEditsOnly(basis, p.keeper.status)
    modifies p`marks, p.keeper`status, p.keeper.file`status, book
    ensures p.Fine() && TornDown(Scene(p.start, basis, l, old(book.since), now, bound), old(p.marks), p.marks)
  {
    ghost var scene := Scene(p.start, basis, l, book.since, now, bound);
    var place, vm := PlaceAt(n), l.vms[n].value;
    var key := VMRemovalKey(place);
    if key in p.keeper.status.removals {
      if p.keeper.status.removals[key].phase == Absent {
        return;
      }
    } else if AddressRemovalKey(place) !in p.keeper.status.removals {
      var pending := book.Pending(vm, now, bound);
      if pending {
        return;
      }
    }
    var name: string := *;
    assert key !in basis.removals ==> VMDue(key, basis, l, scene.since, now, bound);
    var recorded := p.Persist(EnsureVMRemoval(key, Destroy, name, vm, firewall, ""));
    ghost var written := p.marks;
    if recorded {
      var _ := DriveRemoval(p, key, VMRemoval, plan.spacing);
      RemovingIsCalm(p.start, written, p.marks, VMRemoval, key);
    }
    WriteThenCalm(scene, old(p.marks), written, p.marks);
  }

  lemma WriteThenCalm(scene: Scene, a: seq<Mark>, b: seq<Mark>, c: seq<Mark>)
    requires Sized(scene.listing) && TornDown(scene, a, b) && Calm(b, c)
    ensures TornDown(scene, a, c)
  {
    forall i: nat | |a| <= i < |c| ensures InOrder(scene, c, |a|, i) {
      if i < |b| {
        assert InOrder(scene, b, |a|, i) && c[i] == b[i];
        if b[i].Called? && b[i].slot.RemovalSlot? && b[i].slot.action == DeleteFirewall {
          FreeStays(scene.start, b, c, |a|, |a|, i, b[i].slot.key);
        }
      }
    }
  }

  /** VM receipts without a listed VM must reach authoritative absence before any firewall goes. */
  method AwaitVMs(p: Pass, plan: Plan, ghost basis: Status, l: Listing) returns (go: bool)
    requires p.Fine() && Sized(l) && AddressEditsOnly(basis, p.keeper.status)
    modifies p`marks, p.keeper`status, p.keeper.file`status
    ensures p.Fine() && Calm(old(p.marks), p.marks)
    ensures go ==> VMsTerminal(basis, l) && p.marks == old(p.marks) && p.keeper.status == old(p.keeper.status)
  {
    for n := 0 to |l.vms|
      invariant p.marks == old(p.marks) && p.Fine() && p.keeper.status == old(p.keeper.status)
      invariant forall m: nat :: m < n && VMRemovalKey(PlaceAt(m)) in basis.removals ==>
                  basis.removals[VMRemovalKey(PlaceAt(m))].phase == Absent
    {
      var key := VMRemovalKey(PlaceAt(n));
      if key in p.keeper.status.removals && p.keeper.status.removals[key].phase != Absent {
        var _ := DriveRemoval(p, key, VMRemoval, plan.spacing);
        RemovingIsCalm(p.start, old(p.marks), p.marks, VMRemoval, key);
        return false;
      }
    }
    return true;
  }

  /** One firewall: an unlisted one is observed to the end; a listed one without assignments is
      driven one step further, which ends the pass. */
  method RemoveFirewall(p: Pass, plan: Plan, key: string, listed: Outcome<FirewallView>, ghost scene: Scene)
      returns (go: bool)
    requires p.Fine() && scene.start == p.start && Sized(scene.listing) && NoAddress(scene.listing)
             && NoVM(scene.listing) && VMsTerminal(scene.basis, scene.listing)
    modifies p`marks, p.keeper`status, p.keeper.file`status
    ensures p.Fine() && TornDown(scene, old(p.marks), p.marks)
    ensures go ==> listed.Fail? && Calm(old(p.marks), p.marks)
  {
    var recorded := key in p.keeper.status.removals;
    if listed.Fail? {
      if !recorded || (p.keeper.status.removals[key].kind == FirewallRemoval
          && p.keeper.status.removals[key].phase == Absent) {
        return true;
      }
      if p.keeper.status.removals[key].kind != FirewallRemoval {
        return false;
      }
      var terminal := ObserveTwice(p, key, FirewallRemoval, plan.spacing);
      CalmIsInOrder(scene, old(p.marks), p.marks);
      var readable: bool := *;
      return terminal || readable;
    }
    if (recorded && p.keeper.status.removals[key].phase == Absent) || listed.value.vms != {} {
      return false;
    }
    if !recorded {
      var name: string := *;
      recorded := p.Persist(EnsureFirewallRemoval(key, name, listed.value.uuid));
    }
    ghost var written := p.marks;
    assert Calm(old(p.marks), written);
    if recorded {
      var _ := DriveRemoval(p, key, FirewallRemoval, plan.spacing);
      FirewallStepInOrder(scene, written, p.marks, key);
    } else {
      CalmIsInOrder(scene, written, p.marks);
    }
    CalmThen(scene, old(p.marks), written, p.marks);
    return false;
  }

  lemma FirewallStepInOrder(scene: Scene, a: seq<Mark>, b: seq<Mark>, key: string)
    requires Sized(scene.listing) && NoAddress(scene.listing) && NoVM(scene.listing)
             && VMsTerminal(scene.basis, scene.listing)
    requires Removes(scene.start, a, b, FirewallRemoval, key)
    ensures TornDown(scene, a, b)
  {
    forall i: nat | |a| <= i < |b| ensures InOrder(scene, b, |a|, i) {
      assert Fits(scene.start, FirewallRemoval, key, b, |a|, i);
    }
  }

  /** One destroy pass over a listing. In every pass, whatever the cloud, the store and other
      controllers do: a VM removal receipt is first written only when no owned address is listed
      and that VM's address slot has a removal receipt or its bounded wait is over; a firewall
      DELETE is sent only when no owned VM is listed, every VM removal receipt is absent, and a
      read after the issue listed the receipt's own firewall without assignments. `done` means the
      listing was empty and the ledger is cleared. */
  method TearDown(p: Pass, plan: Plan, book: WaitBook, l: Listing, now: int, bound: nat) returns (done: bool)
    requires p.Fine() && Sized(l) && 0 < bound
    modifies p`marks, p.keeper`status, p.keeper.file`status, book
    ensures p.Fine()
            && TornDown(Scene(p.start, old(p.keeper.status), l, old(book.since), now, bound), old(p.marks), p.marks)
    ensures done ==> NoAddress(l) && NoVM(l) && l.bastionFirewall.Fail? && l.nodeFirewall.Fail?
    ensures done ==> VMsTerminal(old(p.keeper.status), l) && p.keeper.status.creates == map[]
                     && p.keeper.status.removals == map[]
  {
    ghost var basis, scene := p.keeper.status, Scene(p.start, p.keeper.status, l, book.since, now, bound);
    var go := ObserveDeletions(p, plan, l);
    if go {
      go := RemoveAddresses(p, plan, l);
    }
    ghost var calm := p.marks;
    CalmIsInOrder(scene, old(p.marks), calm);
    if !go {
      return false;
    }
    for n := 0 to |l.vms|
      invariant p.marks == calm && p.Fine() && book.since == scene.since && AddressEditsOnly(basis, p.keeper.status)
      invariant forall m :: 0 <= m < n ==> l.vms[m].Fail?
    {
      if l.vms[n].Ok? {
        var firewall := if n == 0 then l.bastionFirewall else l.nodeFirewall;
        RemoveVM(p, plan, book, n, if firewall.Ok? then firewall.value.uuid else "", basis, l, now, bound);
        CalmThen(scene, old(p.marks), calm, p.marks);
        return false;
      }
    }
    go := AwaitVMs(p, plan, basis, l);
    CalmIsInOrder(scene, calm, p.marks);
    CalmThen(scene, old(p.marks), calm, p.marks);
    done := false;
    if go {
      done := RemoveFirewalls(p, plan, l, scene);
      CalmThen(scene, old(p.marks), calm, p.marks);
    }
  }

  method RemoveFirewalls(p: Pass, plan: Plan, l: Listing, ghost scene: Scene) returns (done: bool)
    requires p.Fine() && scene.start == p.start && scene.listing == l && Sized(scene.listing)
             && NoAddress(scene.listing) && NoVM(scene.listing) && VMsTerminal(scene.basis, scene.listing)
    modifies p`marks, p.keeper`status, p.keeper.file`status
    ensures p.Fine() && TornDown(scene, old(p.marks), p.marks)
    ensures done ==> l.bastionFirewall.Fail? && l.nodeFirewall.Fail?
    ensures done ==> p.keeper.status.creates == map[] && p.keeper.status.removals == map[]
  {
    var go := RemoveFirewall(p, plan, BASTION_FIREWALL_REMOVAL, l.bastionFirewall, scene);
    if !go {
      return false;
    }
    ghost var first := p.marks;
    go := RemoveFirewall(p, plan, NODE_FIREWALL_REMOVAL, l.nodeFirewall, scene);
    CalmThen(scene, old(p.marks), first, p.marks);
    if !go {
      return false;
    }
    ghost var second := p.marks;
    CalmTwice(old(p.marks), first, second);
    done := p.Persist(ClearAllMutations);
    assert Calm(second, p.marks);
    CalmTwice(old(p.marks), second, p.marks);
    CalmIsInOrder(scene, old(p.marks), p.marks);
  }

  /** A destroy call: an active rollback is driven first, then one destroy pass over what the
      ledger holds afterwards, at `at`. */
  method DestroyOnce(p: Pass, plan: Plan, book: WaitBook, l: Listing, now: int, bound: nat)
      returns (done: bool, ghost basis: Status, ghost at: nat)
    requires p.Fine() && Sized(l) && 0 < bound
    modifies p`marks, p.keeper`status, p.keeper.file`status, book
    ensures |old(p.marks)| <= at <= |p.marks| && basis == Replay(p.start, p.marks[..at])
            && Calm(old(p.marks), p.marks[..at])
    ensures p.Fine() && TornDown(Scene(p.start, basis, l, old(book.since), now, bound), old(p.marks), p.marks)
    ensures done ==> NoAddress(l) && NoVM(l) && l.bastionFirewall.Fail? && l.nodeFirewall.Fail? && VMsTerminal(basis, l)
    ensures done ==> p.keeper.status.creates == map[] && p.keeper.status.removals == map[]
  {
    done := false;
    var resumed := ResumeRollbacks(p, plan, [Bastion, ControlPlane(0), ControlPlane(1), ControlPlane(2)]);
    basis, at := p.keeper.status, |p.marks|;
    ghost var before, scene := p.marks, Scene(p.start, basis, l, book.since, now, bound);
    var valid: bool := *;   // every listing and validation before the first step
    if resumed && valid {
      done := TearDown(p, plan, book, l, now, bound);
      CalmThen(scene, old(p.marks), before, p.marks);
    } else {
      CalmIsInOrder(scene, old(p.marks), p.marks);
    }
    assert p.marks[..at] == before;
  }
}

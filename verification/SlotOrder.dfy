/** One reconciliation pass over the bastion and the control-plane slots, and the order in which
    it may create virtual machines. */
module SlotOrder {
  import opened Outcomes
  import opened Text
  import opened Ledger
  import opened LedgerRules
  import opened ControllerPass
  import opened RemovalDrivers
  import opened CreateDrivers
  import opened ProtectionRollback
  import opened Places

  /** The deterministic resource name and intent hash of every ledger key, the hash of an
      assignment or rename by its resource name, and the waiting times. */
  datatype Plan = Plan(name: string -> string, hash: string -> string, nameHash: string -> string,
                       slots: seq<FixedSlot>, deadline: nat, spacing: nat)

  function KeysOf(place: Place): RollbackKeys requires Known(place) {
    RollbackKeys(VMRemovalKey(place), VMKey(place), AssignmentKey(place), UpdateKey(place))
  }

  /** Undo a VM whose shape or protection could not be established. */
  method RollBackMalformed(p: Pass, plan: Plan, place: Place, firewall: string, vm: string)
    requires p.Fine() && Known(place)
    modifies p`marks, p.keeper`status, p.keeper.file`status
    ensures p.Fine() && CreatesOnly(old(p.marks), p.marks, {})
  {
    var addressName: string := *;
    var wanted := p.Persist(EnsureVMRemoval(VMRemovalKey(place), Rollback, plan.name(VMKey(place)), vm, firewall,
        addressName));
    if !wanted {
      return;
    }
    var retries: nat := *;
    ghost var first := p.marks;
    RetryRollback(p, KeysOf(place), plan.spacing, retries);
    CreatesOnlyThen(old(p.marks), first, p.marks, {}, {});
  }

  /** Drive the rollback until it is done or the waiting time is used up. */
  method RetryRollback(p: Pass, keys: RollbackKeys, spacing: nat, limit: nat)
    requires p.Fine()
    modifies p`marks, p.keeper`status, p.keeper.file`status
    ensures p.Fine() && CreatesOnly(old(p.marks), p.marks, {})
  {
    var done := DriveRollback(p, keys, spacing);
    var retries := limit;
    while !done && 0 < retries
      invariant p.Fine() && Removes(p.start, old(p.marks), p.marks, VMRemoval, keys.removal)
      decreases retries
    {
      ghost var before := p.marks;
      done := DriveRollback(p, keys, spacing);
      RemovesThen(p.start, old(p.marks), before, p.marks, VMRemoval, keys.removal);
      retries := retries - 1;
    }
    RemovingCreatesNothing(p.start, old(p.marks), p.marks, VMRemoval, keys.removal);
  }

  /** What was established about one place: since `lo` a firewall was read, and its receipt was
      anchored to it. */
  ghost predicate Guarded(start: Status, marks: seq<Mark>, lo: nat, plan: Plan, place: Place, firewall: FirewallView) {
    && ReadSince(marks, lo, firewall)
    && AnchoredIn(start, marks, lo, |marks|, FirewallKey(place), Firewall, plan.name(FirewallKey(place)),
       plan.hash(FirewallKey(place)), firewall.uuid)
  }

  lemma GuardStays(start: Status, a: seq<Mark>, b: seq<Mark>, lo: nat, plan: Plan, place: Place, firewall: FirewallView)
    requires a <= b && Guarded(start, a, lo, plan, place, firewall)
    ensures Guarded(start, b, lo, plan, place, firewall)
  {
    var key := FirewallKey(place);
    ReadStays(a, b, lo, firewall);
    AnchorStays(start, a, b, lo, |a|, lo, |b|, key, Firewall, plan.name(key), plan.hash(key), firewall.uuid);
  }

  /** The receipt of a place's VM was anchored to this VM. */
  ghost predicate HasVM(start: Status, marks: seq<Mark>, lo: nat, hi: nat, plan: Plan, place: Place, vm: string)
    requires Known(place)
  {
    AnchoredIn(start, marks, lo, hi, VMKey(place), VirtualMachine, plan.name(VMKey(place)), plan.hash(VMKey(place)), vm)
  }

  /** The VM was read behind the firewall, and the place's assignment receipt anchored for both. */
  ghost predicate Related(start: Status, marks: seq<Mark>, lo: nat, hi: nat, plan: Plan, place: Place,
      firewall: string, vm: string)
    requires Known(place)
  {
    RelationIn(start, marks, lo, hi, AssignmentKey(place), firewall, vm, plan.nameHash(firewall + "/" + vm))
  }

  lemma HasVMStays(start: Status, a: seq<Mark>, b: seq<Mark>, lo: nat, to: nat, hi: nat, plan: Plan, place: Place,
      vm: string)
    requires Known(place) && a <= b && to <= lo && |a| <= hi && HasVM(start, a, lo, |a|, plan, place, vm)
    ensures HasVM(start, b, to, hi, plan, place, vm)
  {
    AnchorStays(start, a, b, lo, |a|, to, hi, VMKey(place), VirtualMachine, plan.name(VMKey(place)),
        plan.hash(VMKey(place)), vm);
  }

  lemma RelatedStays(start: Status, a: seq<Mark>, b: seq<Mark>, lo: nat, to: nat, hi: nat, plan: Plan, place: Place,
      firewall: string, vm: string)
    requires Known(place) && a <= b && to <= lo && |a| <= hi && Related(start, a, lo, |a|, plan, place, firewall, vm)
    ensures Related(start, b, to, hi, plan, place, firewall, vm)
  {
    RelationStays(start, a, b, lo, |a|, to, hi, AssignmentKey(place), firewall, vm, plan.nameHash(firewall + "/" + vm));
  }

  /** Protect a VM whose ownership was proven, then accept it or roll it back. */
  method ProtectCreated(p: Pass, plan: Plan, place: Place, firewall: FirewallView, vm: string,
      rollBackUnprotected: bool, ghost lo: nat)
    returns (r: Outcome<string>)
    requires p.Fine() && Known(place) && lo <= |p.marks| && ReadSince(p.marks, lo, firewall)
    modifies p`marks, p.keeper`status, p.keeper.file`status
    ensures p.Fine() && CreatesOnly(old(p.marks), p.marks, {AssignmentKey(place)})
    ensures r.Ok? ==> r.value == vm && Related(p.start, p.marks, lo, |p.marks|, plan, place, firewall.uuid, vm)
  {
    var shielded :=
        EnsureAssignment(p, AssignmentKey(place), firewall, vm, plan.nameHash(firewall.uuid + "/" + vm), lo);
    var canonical: bool := *;
    if shielded && canonical {
      return Ok(vm);
    }
    if shielded || rollBackUnprotected {
      ghost var before := p.marks;
      RollBackMalformed(p, plan, place, firewall.uuid, vm);
      CreatesOnlyThen(old(p.marks), before, p.marks, {AssignmentKey(place)}, {});
    }
    return Fail;
  }

  /** A managed VM: success means that its receipt is anchored to the returned VM. When it was not
      listed, success also means that it was created or recovered and that this pass read exactly
      that VM behind exactly this firewall and anchored their relation. */
  method EnsureVM(p: Pass, plan: Plan, place: Place, firewall: FirewallView, found: Outcome<string>, ghost lo: nat)
    returns (r: Outcome<string>, created: bool)
    requires p.Fine() && Known(place) && lo <= |p.marks| && (found.Fail? ==> ReadSince(p.marks, lo, firewall))
    modifies p`marks, p.keeper`status, p.keeper.file`status
    ensures p.Fine() && CreatesOnly(old(p.marks), p.marks, {VMKey(place), AssignmentKey(place)})
    ensures found.Ok? ==> CreatesOnly(old(p.marks), p.marks, {}) && (r.Ok? ==> r == found)
    ensures r.Ok? ==> HasVM(p.start, p.marks, lo, |p.marks|, plan, place, r.value)
    ensures found.Fail? && r.Ok? ==> Related(p.start, p.marks, lo, |p.marks|, plan, place, firewall.uuid, r.value)
    ensures PastIntent(old(p.keeper.status), VMKey(place)) ==>
              CreatesOnly(old(p.marks), p.marks, {AssignmentKey(place)})
  {
    created := false;
    var key := VMKey(place);
    if found.Ok? {
      var owned: bool := *;
      if !owned {
        return Fail, false;
      }
      r := AnchorFound(p, key, VirtualMachine, plan.name(key), plan.hash(key), found.value);
      if r.Ok? { AnchoredNow(p.start, p.marks, lo, key, VirtualMachine, plan.name(key), plan.hash(key), found.value); }
      return;
    }
    var anchored;
    anchored, created := CreateOrRecover(p, plan, place, lo);
    if anchored.Fail? {
      return Fail, created;
    }
    ghost var before := p.marks;
    ReadStays(old(p.marks), before, lo, firewall);
    r := ProtectCreated(p, plan, place, firewall, anchored.value, created, lo);
    HasVMStays(p.start, before, p.marks, lo, lo, |p.marks|, plan, place, anchored.value);
    CreatesOnlyThen(old(p.marks), before, p.marks, if PastIntent(old(p.keeper.status), key) then {}
        else {key}, {AssignmentKey(place)});
    var answered: bool := *;   // a call that reported an error is never a success
    r := if answered || !created then r else Fail;
  }

  /** An unlisted VM: recover the identity its receipt already stands for, or create it once. */
  method CreateOrRecover(p: Pass, plan: Plan, place: Place, ghost lo: nat) returns (r: Outcome<string>, created: bool)
    requires p.Fine() && Known(place) && lo <= |p.marks|
    modifies p`marks, p.keeper`status, p.keeper.file`status
    ensures p.Fine() && CreatesOnly(old(p.marks), p.marks, {VMKey(place)})
    ensures PastIntent(old(p.keeper.status), VMKey(place)) ==> CreatesOnly(old(p.marks), p.marks, {})
    ensures r.Ok? ==> HasVM(p.start, p.marks, lo, |p.marks|, plan, place, r.value)
  {
    var key, name, hash := VMKey(place), plan.name(VMKey(place)), plan.hash(VMKey(place));
    created := false;
    var cleared := ClearIfRejected(p, key, VirtualMachine, name, hash);
    if cleared {
      return Fail, false;
    }
    if key in p.keeper.status.creates && p.keeper.status.creates[key].phase != Intent {
      r := RecoverIdentity(p, key, name, hash);
    } else {
      var allowed, _ := Authorize(p, key, VirtualMachine, name, hash);
      if !allowed {
        return Fail, false;
      }
      ghost var granted := p.marks;
      r, created := CreateGranted(p, key, VirtualMachine, name, hash);
      CreatesOnlyThen(old(p.marks), granted, p.marks, {}, {key});
    }
    if r.Ok? { AnchoredNow(p.start, p.marks, lo, key, VirtualMachine, name, hash, r.value); }
  }

  /** A VM receipt past its intent: find and prove the identity, never create again. */
  method RecoverIdentity(p: Pass, key: string, name: string, hash: string) returns (r: Outcome<string>)
    requires p.Fine() && Lookup(p.keeper.status, key, VirtualMachine, name, hash).Ok?
    modifies p`marks, p.keeper`status, p.keeper.file`status
    ensures p.Fine() && CreatesOnly(old(p.marks), p.marks, {})
    ensures r.Ok? ==> AnchoredTo(p.keeper.status, key, VirtualMachine, name, hash, r.value)
  {
    var proven: bool := *;
    if !proven {
      return Fail;
    }
    if p.keeper.status.creates[key].uuid != "" {
      return Ok(p.keeper.status.creates[key].uuid);
    }
    var uuid: string := *;
    var anchored := Record(p, Materialize(key, VirtualMachine, name, hash, uuid));
    return if anchored then Ok(uuid) else Fail;
  }

  /** Protection of a listed VM: the exact assignment, or after its deadline one last read that
      either anchors the relation or starts the rollback. */
  method EnsureProtection(p: Pass, plan: Plan, place: Place, firewall: FirewallView, vm: string, ghost lo: nat)
      returns (ok: bool)
    requires p.Fine() && Known(place) && lo <= |p.marks| && ReadSince(p.marks, lo, firewall)
    modifies p`marks, p.keeper`status, p.keeper.file`status
    ensures p.Fine() && CreatesOnly(old(p.marks), p.marks, {AssignmentKey(place)})
    ensures ok ==> Related(p.start, p.marks, lo, |p.marks|, plan, place, firewall.uuid, vm)
  {
    var key, name := AssignmentKey(place), firewall.uuid + "/" + vm;
    ok := EnsureAssignment(p, key, firewall, vm, plan.nameHash(name), lo);
    if ok {
      return;
    }
    ghost var attempted := p.marks;
    var now: int := *;
    var selection := SelectExpired(p.keeper.status, plan.slots, now, plan.deadline, plan.nameHash);
    if !selection.Chosen? || selection.candidate.assignmentKey != key || !EqualFold(selection.candidate.vmUUID, vm)
       || !EqualFold(selection.candidate.firewallUUID, firewall.uuid) {
      return false;
    }
    var seen;
    seen, ok := ReadAndRecord(p, firewall.uuid, vm,
        Materialize(key, FirewallAssignment, name, plan.nameHash(name), vm));
    if ok {
      RelatedStays(p.start, p.marks, p.marks, |attempted|, lo, |p.marks|, plan, place, firewall.uuid, vm);
    } else if seen == Ok(false) {
      ghost var read := p.marks;
      Contain(p, plan);
      CreatesOnlyThen(attempted, read, p.marks, {}, {});
    }
    CreatesOnlyThen(old(p.marks), attempted, p.marks, {key}, {});
  }

  /** Select again, persist the rollback receipt, and only then clean up. */
  method Contain(p: Pass, plan: Plan)
    requires p.Fine()
    modifies p`marks, p.keeper`status, p.keeper.file`status
    ensures p.Fine() && CreatesOnly(old(p.marks), p.marks, {})
    ensures forall i :: |old(p.marks)| <= i < |p.marks| && p.marks[i].Wrote? && p.marks[i].op.PersistRollback? ==>
              WellChosen(p.marks[i].op.candidate)
  {
    var now: int := *;
    var selection := SelectExpired(p.keeper.status, plan.slots, now, plan.deadline, plan.nameHash);
    if !selection.Chosen? {
      return;
    }
    var later: int := *;
    var c := selection.candidate;
    var persisted := p.Persist(PersistRollback(c, later, plan.deadline));
    if persisted {
      var update: string := *;
      ghost var before := p.marks;
      var _ := DriveRollback(p, RollbackKeys(c.removalKey, c.vmKey, c.assignmentKey, update), plan.spacing);
      RemovingCreatesNothing(p.start, before, p.marks, VMRemoval, c.removalKey);
      CreatesOnlyThen(old(p.marks), before, p.marks, {}, {});
      forall i | |before| <= i < |p.marks| ensures !(p.marks[i].Wrote? && p.marks[i].op.PersistRollback?) {
        assert Fits(p.start, VMRemoval, c.removalKey, p.marks, |before|, i);
      }
      assert p.marks[|before| - 1] == before[|before| - 1];
    }
  }

  // ----- the order of creation -----

  /** Between `lo` and `hi` this very VM of a place was protected by this very firewall: the
      firewall's receipt was anchored to it, the VM's receipt to the VM, a read showed the one
      behind the other, and their relation was anchored after that read. */
  ghost predicate ProtectedBy(start: Status, marks: seq<Mark>, lo: nat, hi: nat, plan: Plan, place: Place,
      firewall: string, vm: string)
    requires Known(place)
  {
    var key := FirewallKey(place);
    && AnchoredIn(start, marks, lo, hi, key, Firewall, plan.name(key), plan.hash(key), firewall)
    && HasVM(start, marks, lo, hi, plan, place, vm) && Related(start, marks, lo, hi, plan, place, firewall, vm)
  }

  ghost predicate Protected(start: Status, marks: seq<Mark>, lo: nat, hi: nat, plan: Plan, place: Place)
    requires Known(place)
  {
    exists firewall, vm :: ProtectedBy(start, marks, lo, hi, plan, place, firewall, vm)
  }

  /** Before `hi`, this pass protected the bastion and every control-plane slot below `slot`. */
  ghost predicate ProtectedBefore(start: Status, marks: seq<Mark>, lo: nat, hi: nat, plan: Plan, slot: nat)
    requires slot <= 10
  {
    && Protected(start, marks, lo, hi, plan, Bastion)
    && forall k: nat :: k < slot ==> Protected(start, marks, lo, hi, plan, ControlPlane(k))
  }

  /** Since `lo`, every control-plane VM call came after the protection of all earlier places. */
  ghost predicate Ordered(start: Status, marks: seq<Mark>, lo: nat, plan: Plan) {
    forall i: nat, slot: nat | lo <= i < |marks| && slot < 10 ::
      marks[i].Called? && marks[i].slot == CreateSlot(VMKey(ControlPlane(slot))) ==>
            ProtectedBefore(start, marks, lo, i, plan, slot)
  }

  lemma PlaceStays(start: Status, a: seq<Mark>, b: seq<Mark>, lo: nat, hi: nat, h: nat, plan: Plan, place: Place)
    requires a <= b && hi <= |a| && hi <= h && Known(place) && Protected(start, a, lo, hi, plan, place)
    ensures Protected(start, b, lo, h, plan, place)
  {
    var firewall, vm :| ProtectedBy(start, a, lo, hi, plan, place, firewall, vm);
    var key := FirewallKey(place);
    AnchorStays(start, a, b, lo, hi, lo, h, key, Firewall, plan.name(key), plan.hash(key), firewall);
    AnchorStays(start, a, b, lo, hi, lo, h, VMKey(place), VirtualMachine, plan.name(VMKey(place)),
        plan.hash(VMKey(place)), vm);
    RelationStays(start, a, b, lo, hi, lo, h, AssignmentKey(place), firewall, vm, plan.nameHash(firewall + "/" + vm));
    assert ProtectedBy(start, b, lo, h, plan, place, firewall, vm);
  }

  lemma ProtectionStays(start: Status, a: seq<Mark>, b: seq<Mark>, lo: nat, hi: nat, h: nat, plan: Plan, slot: nat)
    requires a <= b && hi <= |a| && hi <= h && slot <= 10 && ProtectedBefore(start, a, lo, hi, plan, slot)
    ensures ProtectedBefore(start, b, lo, h, plan, slot)
  {
    PlaceStays(start, a, b, lo, hi, h, plan, Bastion);
    forall k: nat | k < slot ensures Protected(start, b, lo, h, plan, ControlPlane(k)) {
      PlaceStays(start, a, b, lo, hi, h, plan, ControlPlane(k));
    }
  }

  /** A continuation that creates at most the VM of `slot`, once the places before it are
      protected, keeps the order. */
  lemma OrderContinues(start: Status, a: seq<Mark>, b: seq<Mark>, lo: nat, plan: Plan, keys: set<string>, slot: nat)
    requires lo <= |a| && Ordered(start, a, lo, plan) && CreatesOnly(a, b, keys) && slot < 10
    requires forall k: nat :: k < 10 && k != slot ==> VMKey(ControlPlane(k)) !in keys
    requires VMKey(ControlPlane(slot)) in keys ==> ProtectedBefore(start, a, lo, |a|, plan, slot)
    ensures Ordered(start, b, lo, plan)
  {
    forall i: nat, j: nat | lo <= i < |b| && j < 10 && b[i].Called? && b[i].slot == CreateSlot(VMKey(ControlPlane(j)))
      ensures ProtectedBefore(start, b, lo, i, plan, j)
    {
      if i < |a| {
        assert a[i] == b[i];
        ProtectionStays(start, a, b, lo, i, i, plan, j);
      } else {
        assert j == slot;
        ProtectionStays(start, a, b, lo, |a|, i, plan, j);
      }
    }
  }

  /** What one pass lists before it mutates anything. */
  datatype View = View(bastion: Outcome<string>, bastionFirewall: Outcome<FirewallView>,
                       nodeFirewall: Outcome<FirewallView>, controlPlanes: seq<Outcome<string>>)

  /** Note the listed firewalls. */
  method NoteListing(p: Pass, view: View)
    requires p.Fine()
    modifies p`marks
    ensures p.Fine() && CreatesOnly(old(p.marks), p.marks, {}) && Viewed(p.marks, |old(p.marks)|, view)
  {
    if view.bastionFirewall.Ok? {
      p.Note(Saw(view.bastionFirewall.value));
      assert p.marks[|old(p.marks)|] == Saw(view.bastionFirewall.value);
    }
    ghost var first := p.marks;
    if view.nodeFirewall.Ok? {
      p.Note(Saw(view.nodeFirewall.value));
      assert p.marks[|first|] == Saw(view.nodeFirewall.value);
      if view.bastionFirewall.Ok? { ReadStays(first, p.marks, |old(p.marks)|, view.bastionFirewall.value); }
    }
  }

  ghost predicate Viewed(marks: seq<Mark>, lo: nat, view: View) {
    && (view.bastionFirewall.Ok? ==> ReadSince(marks, lo, view.bastionFirewall.value))
    && (view.nodeFirewall.Ok? ==> ReadSince(marks, lo, view.nodeFirewall.value))
  }

  lemma ViewStays(a: seq<Mark>, b: seq<Mark>, lo: nat, to: nat, view: View)
    requires a <= b && to <= lo && Viewed(a, lo, view)
    ensures Viewed(b, to, view)
  {
    if view.bastionFirewall.Ok? { ReadStays(a, b, lo, view.bastionFirewall.value); }
    if view.nodeFirewall.Ok? { ReadStays(a, b, lo, view.nodeFirewall.value); }
  }

  /** The managed firewall of a place, listed or created, read in this pass and anchored. */
  method EnsureGuard(p: Pass, plan: Plan, place: Place, found: Outcome<FirewallView>, ghost lo: nat)
      returns (r: Outcome<FirewallView>)
    requires p.Fine() && lo <= |p.marks| && (found.Ok? ==> ReadSince(p.marks, lo, found.value))
    modifies p`marks, p.keeper`status, p.keeper.file`status
    ensures p.Fine() && CreatesOnly(old(p.marks), p.marks, {FirewallKey(place)})
    ensures r.Ok? ==> Guarded(p.start, p.marks, lo, plan, place, r.value)
  {
    var key := FirewallKey(place);
    r := EnsureFirewall(p, key, plan.name(key), plan.hash(key), found);
    if r.Ok? {
      AnchoredNow(p.start, p.marks, lo, key, Firewall, plan.name(key), plan.hash(key), r.value.uuid);
      if found.Ok? { ReadStays(old(p.marks), p.marks, lo, found.value); }
    }
  }

  ghost function BastionKeys(): set<string> {
    {VMKey(Bastion), AssignmentKey(Bastion), BASTION_FIREWALL}
  }

  /** The bastion, behind its firewall when it has to be created. */
  method EnsureBastionVM(p: Pass, plan: Plan, view: View, ghost lo: nat)
      returns (vm: Outcome<string>, firewall: Outcome<FirewallView>)
    requires p.Fine() && lo <= |p.marks| && Viewed(p.marks, lo, view)
    modifies p`marks, p.keeper`status, p.keeper.file`status
    ensures p.Fine() && CreatesOnly(old(p.marks), p.marks, BastionKeys())
    ensures vm.Ok? ==> HasVM(p.start, p.marks, lo, |p.marks|, plan, Bastion, vm.value)
    ensures vm.Ok? && firewall.Ok? ==> ReadSince(p.marks, lo, firewall.value)
  {
    firewall := view.bastionFirewall;
    var created;
    if view.bastion.Ok? {
      vm, created := EnsureVM(p, plan, Bastion, FirewallView("", {}), view.bastion, lo);
      ViewStays(old(p.marks), p.marks, lo, lo, view);
      return;
    }
    firewall := EnsureGuard(p, plan, Bastion, firewall, lo);
    if firewall.Fail? {
      return Fail, Fail;
    }
    ghost var a := p.marks;
    vm, created := EnsureVM(p, plan, Bastion, firewall.value, Fail, lo);
    CreatesOnlyThen(old(p.marks), a, p.marks, {BASTION_FIREWALL}, {VMKey(Bastion), AssignmentKey(Bastion)});
    ReadStays(a, p.marks, lo, firewall.value);
    vm := if created then Fail else vm;
  }

  /** The bastion and its protection. A bastion created in this pass ends the pass. */
  method EnsureBastion(p: Pass, plan: Plan, view: View, ghost lo: nat) returns (r: Outcome<string>)
    requires p.Fine() && lo <= |p.marks| && Viewed(p.marks, lo, view)
    modifies p`marks, p.keeper`status, p.keeper.file`status
    ensures p.Fine() && CreatesOnly(old(p.marks), p.marks, BastionKeys())
    ensures r.Ok? ==> Protected(p.start, p.marks, lo, |p.marks|, plan, Bastion)
  {
    var vm, firewall := EnsureBastionVM(p, plan, view, lo);
    if vm.Fail? {
      return Fail;
    }
    ghost var b := p.marks;
    firewall := EnsureGuard(p, plan, Bastion, firewall, lo);
    CreatesOnlyThen(old(p.marks), b, p.marks, BastionKeys(), {BASTION_FIREWALL});
    if firewall.Fail? {
      return Fail;
    }
    ghost var c := p.marks;
    HasVMStays(p.start, b, c, lo, lo, |c|, plan, Bastion, vm.value);
    var ok := EnsureProtection(p, plan, Bastion, firewall.value, vm.value, lo);
    CreatesOnlyThen(old(p.marks), c, p.marks, BastionKeys(), {AssignmentKey(Bastion)});
    if !ok {
      return Fail;
    }
    ProtectedNow(p.start, c, p.marks, lo, plan, Bastion, firewall.value, vm.value);
    return vm;
  }

  /** Guarded and holding its VM, a place becomes protected with the relation. */
  lemma ProtectedNow(start: Status, a: seq<Mark>, b: seq<Mark>, lo: nat, plan: Plan, place: Place,
      firewall: FirewallView, vm: string)
    requires a <= b && Known(place) && Guarded(start, a, lo, plan, place, firewall)
             && HasVM(start, a, lo, |a|, plan, place, vm)
    requires Related(start, b, lo, |b|, plan, place, firewall.uuid, vm)
    ensures Protected(start, b, lo, |b|, plan, place)
  {
    GuardStays(start, a, b, lo, plan, place, firewall);
    HasVMStays(start, a, b, lo, lo, |b|, plan, place, vm);
    assert ProtectedBy(start, b, lo, |b|, plan, place, firewall.uuid, vm);
  }

  /** The state between two slots: guarded by the node firewall, in order, all below protected. */
  ghost predicate Ready(start: Status, marks: seq<Mark>, lo: nat, plan: Plan, firewall: FirewallView, slot: nat)
    requires slot <= 10
  {
    && lo <= |marks| && Ordered(start, marks, lo, plan) && ProtectedBefore(start, marks, lo, |marks|, plan, slot)
    && Guarded(start, marks, lo, plan, ControlPlane(0), firewall)
  }

  /** Every missing slot in order: a listed VM is protected again, a missing one is created and
      protected, and the first failure ends the pass. */
  method FillSlots(p: Pass, plan: Plan, firewall: FirewallView, slots: seq<Outcome<string>>, ghost lo: nat)
      returns (ok: bool)
    requires p.Fine() && |slots| < 10 && Ready(p.start, p.marks, lo, plan, firewall, 0)
    modifies p`marks, p.keeper`status, p.keeper.file`status
    ensures p.Fine() && old(p.marks) <= p.marks && Ordered(p.start, p.marks, lo, plan)
    ensures ok ==> Ready(p.start, p.marks, lo, plan, firewall, |slots|)
  {
    for slot := 0 to |slots|
      invariant p.Fine() && old(p.marks) <= p.marks && Ready(p.start, p.marks, lo, plan, firewall, slot)
    {
      ok := FillSlot(p, plan, firewall, slots[slot], slot, lo);
      if !ok {
        return false;
      }
    }
    return true;
  }

  method FillSlot(p: Pass, plan: Plan, firewall: FirewallView, found: Outcome<string>, slot: nat, ghost lo: nat)
      returns (ok: bool)
    requires p.Fine() && slot < 10 && Ready(p.start, p.marks, lo, plan, firewall, slot)
    modifies p`marks, p.keeper`status, p.keeper.file`status
    ensures p.Fine() && old(p.marks) <= p.marks && Ordered(p.start, p.marks, lo, plan)
    ensures ok ==> Ready(p.start, p.marks, lo, plan, firewall, slot + 1)
  {
    var residual: bool := *;
    if found.Fail? && residual {
      return false;
    }
    ok := EnsureSlot(p, plan, firewall, found, slot, lo);
    SlotStep(p.start, old(p.marks), p.marks, lo, plan, firewall, slot);
  }

  lemma SlotKeepsOrder(start: Status, a: seq<Mark>, b: seq<Mark>, lo: nat, plan: Plan, slot: nat)
    requires slot < 10 && lo <= |a| && Ordered(start, a, lo, plan)
    requires ProtectedBefore(start, a, lo, |a|, plan, slot)
    requires CreatesOnly(a, b, {VMKey(ControlPlane(slot)), AssignmentKey(ControlPlane(slot))})
    ensures Ordered(start, b, lo, plan)
  {
    KeysOfOthers(ControlPlane(slot));
    OrderContinues(start, a, b, lo, plan, {VMKey(ControlPlane(slot)), AssignmentKey(ControlPlane(slot))}, slot);
  }

  /** Work on one slot keeps the order, and its protection readies the next one. */
  lemma SlotStep(start: Status, a: seq<Mark>, b: seq<Mark>, lo: nat, plan: Plan, firewall: FirewallView, slot: nat)
    requires slot < 10 && Ready(start, a, lo, plan, firewall, slot)
    requires CreatesOnly(a, b, {VMKey(ControlPlane(slot)), AssignmentKey(ControlPlane(slot))})
    ensures Ordered(start, b, lo, plan)
    ensures Protected(start, b, lo, |b|, plan, ControlPlane(slot)) ==> Ready(start, b, lo, plan, firewall, slot + 1)
  {
    SlotKeepsOrder(start, a, b, lo, plan, slot);
    GuardStays(start, a, b, lo, plan, ControlPlane(0), firewall);
    if Protected(start, b, lo, |b|, plan, ControlPlane(slot)) { OneMoreProtected(start, a, b, lo, plan, slot); }
  }

  lemma OneMoreProtected(start: Status, a: seq<Mark>, b: seq<Mark>, lo: nat, plan: Plan, slot: nat)
    requires a <= b && slot < 10 && ProtectedBefore(start, a, lo, |a|, plan, slot)
             && Protected(start, b, lo, |b|, plan, ControlPlane(slot))
    ensures ProtectedBefore(start, b, lo, |b|, plan, slot + 1)
  {
    ProtectionStays(start, a, b, lo, |a|, |b|, plan, slot);
  }

  /** One slot: its VM, and its protection where the VM was already listed. */
  method EnsureSlot(p: Pass, plan: Plan, firewall: FirewallView, found: Outcome<string>, slot: nat, ghost lo: nat)
      returns (ok: bool)
    requires p.Fine() && slot < 10 && lo <= |p.marks|
             && Guarded(p.start, p.marks, lo, plan, ControlPlane(slot), firewall)
    modifies p`marks, p.keeper`status, p.keeper.file`status
    ensures p.Fine()
            && CreatesOnly(old(p.marks), p.marks, {VMKey(ControlPlane(slot)), AssignmentKey(ControlPlane(slot))})
    ensures ok ==> Protected(p.start, p.marks, lo, |p.marks|, plan, ControlPlane(slot))
  {
    var place := ControlPlane(slot);
    var vm, _ := EnsureVM(p, plan, place, firewall, found, lo);
    if vm.Fail? {
      return false;
    }
    ghost var a := p.marks;
    GuardStays(p.start, old(p.marks), a, lo, plan, place, firewall);
    ok := true;
    if found.Ok? {
      ok := EnsureProtection(p, plan, place, firewall, vm.value, lo);
      CreatesOnlyThen(old(p.marks), a, p.marks, {}, {AssignmentKey(place)});
    }
    if ok { ProtectedNow(p.start, a, p.marks, lo, plan, place, firewall, vm.value); }
  }

  lemma KeysOfOthers(place: Place)
    requires Known(place)
    ensures forall k: nat :: k < 10 && ControlPlane(k) != place ==>
              VMKey(ControlPlane(k)) !in {VMKey(place), AssignmentKey(place)}
  {
    forall k: nat | k < 10 && ControlPlane(k) != place
        ensures VMKey(ControlPlane(k)) !in {VMKey(place), AssignmentKey(place)} {
      CreateKeysDiffer(ControlPlane(k), place);
    }
  }

  /** At most one rollback may be active; it is driven first and must finish. */
  method ResumeRollbacks(p: Pass, plan: Plan, places: seq<Place>) returns (go: bool)
    requires p.Fine() && forall i :: 0 <= i < |places| ==> Known(places[i])
    modifies p`marks, p.keeper`status, p.keeper.file`status
    ensures p.Fine() && CreatesOnly(old(p.marks), p.marks, {})
    ensures Calm(old(p.marks), p.marks)
  {
    var active: Outcome<Place> := Fail;
    for i := 0 to |places|
      invariant p.marks == old(p.marks) && p.Fine() && (active.Ok? ==> Known(active.value))
    {
      var key := VMRemovalKey(places[i]);
      if key in p.keeper.status.removals && p.keeper.status.removals[key].kind == VMRemoval {
        var receipt := p.keeper.status.removals[key];
        if !ValidRemoval(receipt) || (receipt.purpose == Rollback && active.Ok?) {
          return false;
        }
        if receipt.purpose == Rollback {
          active := Ok(places[i]);
        }
      }
    }
    if active.Fail? {
      return true;
    }
    go := DriveRollback(p, KeysOf(active.value), plan.spacing);
    RemovingCreatesNothing(p.start, old(p.marks), p.marks, VMRemoval, VMRemovalKey(active.value));
    forall i: nat | |old(p.marks)| <= i < |p.marks|
      ensures !(p.marks[i].Wrote? && WritesVMReceipt(p.marks[i].op))
      ensures !(p.marks[i].Called? && p.marks[i].slot.RemovalSlot? && p.marks[i].slot.action == DeleteFirewall)
    {
      assert Fits(p.start, VMRemoval, VMRemovalKey(active.value), p.marks, |old(p.marks)|, i);
    }
  }

  /** The VM of every slot below n was anchored. */
  ghost predicate HasVMs(start: Status, marks: seq<Mark>, lo: nat, plan: Plan, slots: seq<Outcome<string>>, n: nat)
    requires n <= |slots| < 10
  {
    forall k: nat :: k < n ==> slots[k].Ok? && HasVM(start, marks, lo, |marks|, plan, ControlPlane(k), slots[k].value)
  }

  lemma HasVMsStays(start: Status, a: seq<Mark>, b: seq<Mark>, lo: nat, plan: Plan, slots: seq<Outcome<string>>, n: nat)
    requires n <= |slots| < 10 && a <= b && HasVMs(start, a, lo, plan, slots, n)
    ensures HasVMs(start, b, lo, plan, slots, n)
  {
    forall k: nat | k < n ensures slots[k].Ok? && HasVM(start, b, lo, |b|, plan, ControlPlane(k), slots[k].value) {
      HasVMStays(start, a, b, lo, lo, |b|, plan, ControlPlane(k), slots[k].value);
    }
  }

  /** Slots that all exist: anchor every one, then protect every one. */
  method SettleSlots(p: Pass, plan: Plan, firewall: FirewallView, slots: seq<Outcome<string>>, ghost lo: nat)
      returns (ok: bool)
    requires p.Fine() && |slots| < 10 && (forall i :: 0 <= i < |slots| ==> slots[i].Ok?)
             && Ready(p.start, p.marks, lo, plan, firewall, 0)
    modifies p`marks, p.keeper`status, p.keeper.file`status
    ensures p.Fine() && old(p.marks) <= p.marks && Ordered(p.start, p.marks, lo, plan)
    ensures ok ==> Ready(p.start, p.marks, lo, plan, firewall, |slots|)
  {
    ok := AnchorSlots(p, plan, slots, lo);
    OrderContinues(p.start, old(p.marks), p.marks, lo, plan, {}, 0);
    if !ok {
      return false;
    }
    ProtectionStays(p.start, old(p.marks), p.marks, lo, |old(p.marks)|, |p.marks|, plan, 0);
    GuardStays(p.start, old(p.marks), p.marks, lo, plan, ControlPlane(0), firewall);
    ok := ProtectSlots(p, plan, firewall, slots, lo);
  }

  method AnchorSlots(p: Pass, plan: Plan, slots: seq<Outcome<string>>, ghost lo: nat) returns (ok: bool)
    requires p.Fine() && |slots| < 10 && (forall i :: 0 <= i < |slots| ==> slots[i].Ok?) && lo <= |p.marks|
    modifies p`marks, p.keeper`status, p.keeper.file`status
    ensures p.Fine() && CreatesOnly(old(p.marks), p.marks, {})
    ensures ok ==> HasVMs(p.start, p.marks, lo, plan, slots, |slots|)
  {
    for slot := 0 to |slots|
      invariant p.Fine() && CreatesOnly(old(p.marks), p.marks, {}) && HasVMs(p.start, p.marks, lo, plan, slots, slot)
    {
      ghost var before := p.marks;
      ok := AnchorSlot(p, plan, slots, slot, lo);
      CreatesOnlyThen(old(p.marks), before, p.marks, {}, {});
      if !ok {
        return false;
      }
    }
    return true;
  }

  method AnchorSlot(p: Pass, plan: Plan, slots: seq<Outcome<string>>, slot: nat, ghost lo: nat) returns (ok: bool)
    requires p.Fine() && slot < |slots| < 10 && slots[slot].Ok? && lo <= |p.marks|
             && HasVMs(p.start, p.marks, lo, plan, slots, slot)
    modifies p`marks, p.keeper`status, p.keeper.file`status
    ensures p.Fine() && CreatesOnly(old(p.marks), p.marks, {})
    ensures ok ==> HasVMs(p.start, p.marks, lo, plan, slots, slot + 1)
  {
    var vm, _ := EnsureVM(p, plan, ControlPlane(slot), FirewallView("", {}), slots[slot], lo);
    HasVMsStays(p.start, old(p.marks), p.marks, lo, plan, slots, slot);
    ok := vm.Ok?;
  }

  method ProtectSlots(p: Pass, plan: Plan, firewall: FirewallView, slots: seq<Outcome<string>>, ghost lo: nat)
      returns (ok: bool)
    requires p.Fine() && |slots| < 10 && Ready(p.start, p.marks, lo, plan, firewall, 0)
             && HasVMs(p.start, p.marks, lo, plan, slots, |slots|)
    modifies p`marks, p.keeper`status, p.keeper.file`status
    ensures p.Fine() && old(p.marks) <= p.marks && Ordered(p.start, p.marks, lo, plan)
    ensures ok ==> Ready(p.start, p.marks, lo, plan, firewall, |slots|)
  {
    for slot := 0 to |slots|
      invariant p.Fine() && old(p.marks) <= p.marks && Ready(p.start, p.marks, lo, plan, firewall, slot)
      invariant HasVMs(p.start, p.marks, lo, plan, slots, |slots|)
    {
      ok := ProtectSlot(p, plan, firewall, slots, slot, lo);
      if !ok {
        return false;
      }
    }
    ok := true;
  }

  method ProtectSlot(p: Pass, plan: Plan, firewall: FirewallView, slots: seq<Outcome<string>>, slot: nat,
      ghost lo: nat) returns (ok: bool)
    requires p.Fine() && slot < |slots| < 10 && Ready(p.start, p.marks, lo, plan, firewall, slot)
             && HasVMs(p.start, p.marks, lo, plan, slots, |slots|)
    modifies p`marks, p.keeper`status, p.keeper.file`status
    ensures p.Fine() && old(p.marks) <= p.marks && Ordered(p.start, p.marks, lo, plan)
    ensures ok ==> Ready(p.start, p.marks, lo, plan, firewall, slot + 1)
                   && HasVMs(p.start, p.marks, lo, plan, slots, |slots|)
  {
    var place := ControlPlane(slot);
    ok := EnsureProtection(p, plan, place, firewall, slots[slot].value, lo);
    if ok { ProtectedNow(p.start, old(p.marks), p.marks, lo, plan, place, firewall, slots[slot].value); }
    SlotStep(p.start, old(p.marks), p.marks, lo, plan, firewall, slot);
    HasVMsStays(p.start, old(p.marks), p.marks, lo, plan, slots, |slots|);
  }

  /** Name one address; this never disturbs the creation order. */
  method NameAddress(p: Pass, plan: Plan, place: Place, vm: string, ghost lo: nat, ghost slots: nat) returns (ok: bool)
    requires p.Fine() && Known(place) && slots < 10
    requires lo <= |p.marks| && Ordered(p.start, p.marks, lo, plan)
             && ProtectedBefore(p.start, p.marks, lo, |p.marks|, plan, slots)
    modifies p`marks, p.keeper`status, p.keeper.file`status
    ensures p.Fine() && old(p.marks) <= p.marks && Ordered(p.start, p.marks, lo, plan)
            && ProtectedBefore(p.start, p.marks, lo, |p.marks|, plan, slots)
  {
    var resource: string, listed: bool := *, *;
    if !listed {
      return false;
    }
    ok := EnsureAddressName(p, UpdateKey(place), resource, plan.nameHash(resource), vm);
    forall k: nat | k < 10 ensures VMKey(ControlPlane(k)) != UpdateKey(place) {
      CreateKeysDiffer(ControlPlane(k), place);
    }
    OrderContinues(p.start, old(p.marks), p.marks, lo, plan, {UpdateKey(place)}, 0);
    ProtectionStays(p.start, old(p.marks), p.marks, lo, |old(p.marks)|, |p.marks|, plan, slots);
  }

  /** One reconciliation pass. In every pass, whatever the cloud, the store and other controllers
      do, a control-plane VM call for slot j is sent only after this pass, for the bastion and for
      every slot below j, anchored that place's own VM and firewall, read the one behind the other
      and anchored exactly that relation; and the pass reports readiness only with every place
      protected so. */
  method Reconcile(p: Pass, plan: Plan, view: View) returns (ready: bool)
    requires p.Fine() && (|view.controlPlanes| == 1 || |view.controlPlanes| == 3)
    modifies p`marks, p.keeper`status, p.keeper.file`status
    ensures p.Fine() && old(p.marks) <= p.marks && Ordered(p.start, p.marks, |old(p.marks)|, plan)
    ensures ready ==> ProtectedBefore(p.start, p.marks, |old(p.marks)|, |p.marks|, plan, |view.controlPlanes|)
  {
    ghost var lo := |p.marks|;
    var resumed := ResumeRollbacks(p, plan, [Bastion, ControlPlane(0), ControlPlane(1), ControlPlane(2)]);
    OrderContinues(p.start, old(p.marks), p.marks, lo, plan, {}, 0);
    var valid: bool := *;   // every listing and validation before the first mutation
    if !resumed || !valid {
      return false;
    }
    ghost var before := p.marks;
    NoteListing(p, view);
    OrderContinues(p.start, before, p.marks, lo, plan, {}, 0);
    ViewStays(p.marks, p.marks, |before|, lo, view);
    var firewall := Prepare(p, plan, view, lo);
    if firewall.Ok? {
      ready := Slots(p, plan, view, firewall.value, lo);
    } else {
      ready := false;
    }
  }

  /** The bastion, its protection and address, and the node firewall. */
  method Prepare(p: Pass, plan: Plan, view: View, ghost lo: nat) returns (firewall: Outcome<FirewallView>)
    requires p.Fine() && lo <= |p.marks| && Ordered(p.start, p.marks, lo, plan) && Viewed(p.marks, lo, view)
    modifies p`marks, p.keeper`status, p.keeper.file`status
    ensures p.Fine() && old(p.marks) <= p.marks && Ordered(p.start, p.marks, lo, plan)
    ensures firewall.Ok? ==> Ready(p.start, p.marks, lo, plan, firewall.value, 0)
  {
    var bastion := EnsureBastion(p, plan, view, lo);
    forall k: nat | k < 10 ensures VMKey(ControlPlane(k)) !in BastionKeys() {
      CreateKeysDiffer(ControlPlane(k), Bastion);
    }
    OrderContinues(p.start, old(p.marks), p.marks, lo, plan, BastionKeys(), 0);
    if bastion.Fail? {
      return Fail;
    }
    var named := NameAddress(p, plan, Bastion, bastion.value, lo, 0);
    if !named {
      return Fail;
    }
    ghost var before := p.marks;
    ViewStays(old(p.marks), before, lo, lo, view);
    firewall := EnsureGuard(p, plan, ControlPlane(0), view.nodeFirewall, lo);
    forall k: nat | k < 10 ensures VMKey(ControlPlane(k)) != NODE_FIREWALL {
      CreateKeysDiffer(ControlPlane(k), ControlPlane(k));
    }
    OrderContinues(p.start, before, p.marks, lo, plan, {NODE_FIREWALL}, 0);
    ProtectionStays(p.start, before, p.marks, lo, |before|, |p.marks|, plan, 0);
  }

  method Slots(p: Pass, plan: Plan, view: View, firewall: FirewallView, ghost lo: nat) returns (ready: bool)
    requires p.Fine() && |view.controlPlanes| < 10 && Ready(p.start, p.marks, lo, plan, firewall, 0)
    modifies p`marks, p.keeper`status, p.keeper.file`status
    ensures p.Fine() && old(p.marks) <= p.marks && Ordered(p.start, p.marks, lo, plan)
    ensures ready ==> ProtectedBefore(p.start, p.marks, lo, |p.marks|, plan, |view.controlPlanes|)
  {
    var slots := view.controlPlanes;
    if exists i :: 0 <= i < |slots| && slots[i].Fail? {
      var _ := FillSlots(p, plan, firewall, slots, lo);
      return false;
    }
    ready := SettleSlots(p, plan, firewall, slots, lo);
    if ready {
      ready := NameSlots(p, plan, slots, lo);
    }
  }

  /** Once every slot is settled, name the addresses in order. */
  method NameSlots(p: Pass, plan: Plan, slots: seq<Outcome<string>>, ghost lo: nat) returns (ready: bool)
    requires p.Fine() && |slots| < 10 && (forall i :: 0 <= i < |slots| ==> slots[i].Ok?)
    requires lo <= |p.marks| && Ordered(p.start, p.marks, lo, plan)
             && ProtectedBefore(p.start, p.marks, lo, |p.marks|, plan, |slots|)
    modifies p`marks, p.keeper`status, p.keeper.file`status
    ensures p.Fine() && old(p.marks) <= p.marks && Ordered(p.start, p.marks, lo, plan)
    ensures ProtectedBefore(p.start, p.marks, lo, |p.marks|, plan, |slots|)
  {
    for slot := 0 to |slots|
      invariant p.Fine() && old(p.marks) <= p.marks && Ordered(p.start, p.marks, lo, plan)
      invariant ProtectedBefore(p.start, p.marks, lo, |p.marks|, plan, |slots|)
    {
      var usable: bool := *;
      if !usable {
        return false;
      }
      var named := NameAddress(p, plan, ControlPlane(slot), slots[slot].value, lo, |slots|);
      if !named {
        return false;
      }
    }
    return true;
  }
}

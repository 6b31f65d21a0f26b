/** The create, assignment and rename procedures. Each one keeps the trace disciplined, sends
    only its own calls, and reports success only for what the ledger then anchors. */
module CreateDrivers {
  import opened Outcomes
  import opened Text
  import opened Ledger
  import opened LedgerRules
  import opened ControllerPass

  lemma RecordedIsAnchored(op: Op, s: Status, d: Status)
    requires op.Materialize? || op.Adopt?
    requires Perform(op, s) == Ok(d)
    ensures AnchoredTo(d, op.key, op.kind, op.name, op.hash, op.uuid)
  {
    LowerKeepsUUID(op.uuid);
  }

  /** Record an identity that was read back: adopted where no call was issued, else materialized. */
  method Record(p: Pass, op: Op) returns (ok: bool)
    requires p.Fine() && (op.Materialize? || op.Adopt?)
    modifies p`marks, p.keeper`status, p.keeper.file`status
    ensures p.Fine() && p.marks == old(p.marks) + [Wrote(op, ok)]
    ensures ok ==> AnchoredTo(p.keeper.status, op.key, op.kind, op.name, op.hash, op.uuid)
  {
    ghost var before := p.keeper.status;
    ok := p.Persist(op);
    if ok { RecordedIsAnchored(op, before, p.keeper.status); }
  }

  predicate Issuable(s: Status, key: string, kind: CreateKind, name: string, hash: string) {
    key in s.creates && ValidCreateAttempt(s.creates[key], kind, name, hash) && s.creates[key].phase == Intent
  }

  predicate PastIntent(s: Status, key: string) {
    key in s.creates && s.creates[key].phase != Intent
  }

  /** The assignment name does not spell a firewall and a VM. */
  predicate Unassignable(kind: CreateKind, name: string) {
    kind == FirewallAssignment && AssignmentFirewall(name).Fail?
  }

  /** Persist intent when needed, then ask for the one-call grant. Only a reported success of the
      issue grants the call, and then the file holds that issue; a receipt past its intent is
      read-only. */
  method Authorize(p: Pass, key: string, kind: CreateKind, name: string, hash: string) returns (allowed: bool, ok: bool)
    requires p.Fine()
    modifies p`marks, p.keeper`status, p.keeper.file`status
    ensures p.Fine() && CreatesOnly(old(p.marks), p.marks, {}) && Calm(old(p.marks), p.marks)
    ensures allowed ==> ok && StageOf(p.marks) == Granted(CreateSlot(key)) && p.keeper.file.status == p.keeper.status
                        && p.marks[|p.marks| - 1].Wrote? && p.marks[|p.marks| - 1].op.PersistIssue?
                        && LiveIssue(p.keeper.status, CreateSlot(key)) == Ok(p.marks[|p.marks| - 1].op.id)
    ensures ok && !allowed ==> p.marks == old(p.marks) && p.keeper.status == old(p.keeper.status)
                               && PastIntent(p.keeper.status, key)
                                  && ValidCreateAttempt(p.keeper.status.creates[key], kind, name, hash)
    ensures Unassignable(kind, name) ==> !ok && p.marks == old(p.marks)
    ensures key !in old(p.keeper.status).creates && !Unassignable(kind, name) ==>
              |old(p.marks)| < |p.marks| && p.marks[|old(p.marks)|].Wrote?
                  && p.marks[|old(p.marks)|].op == PersistIntent(key, kind, name, hash)
    ensures key in old(p.keeper.status).creates && !Issuable(old(p.keeper.status), key, kind, name, hash) ==>
              !allowed && p.marks == old(p.marks)
    ensures Issuable(old(p.keeper.status), key, kind, name, hash) && !Unassignable(kind, name) ==>
              |p.marks| == |old(p.marks)| + 1 && p.marks[|old(p.marks)|].Wrote?
                  && p.marks[|old(p.marks)|].op.PersistIssue? && p.marks[|old(p.marks)|].ok == allowed
  {
    if Unassignable(kind, name) {
      return false, false;
    }
    if key in p.keeper.status.creates {
      var attempt := p.keeper.status.creates[key];
      if !ValidCreateAttempt(attempt, kind, name, hash) {
        return false, false;
      }
      if attempt.phase != Intent {
        return false, true;
      }
      allowed := Grant(p, key, kind, name, hash);
    } else {
      allowed := IntendAndGrant(p, key, kind, name, hash);
    }
    ok := allowed;
  }

  /** Without a receipt, record the intent first. */
  method IntendAndGrant(p: Pass, key: string, kind: CreateKind, name: string, hash: string) returns (allowed: bool)
    requires p.Fine()
    modifies p`marks, p.keeper`status, p.keeper.file`status
    ensures p.Fine() && CreatesOnly(old(p.marks), p.marks, {}) && Calm(old(p.marks), p.marks)
    ensures |old(p.marks)| < |p.marks| && p.marks[|old(p.marks)|].Wrote?
            && p.marks[|old(p.marks)|].op == PersistIntent(key, kind, name, hash)
    ensures allowed ==> StageOf(p.marks) == Granted(CreateSlot(key)) && p.keeper.file.status == p.keeper.status
                        && p.marks[|p.marks| - 1].Wrote? && p.marks[|p.marks| - 1].op.PersistIssue?
                        && LiveIssue(p.keeper.status, CreateSlot(key)) == Ok(p.marks[|p.marks| - 1].op.id)
  {
    var persisted := p.Persist(PersistIntent(key, kind, name, hash));
    if !persisted {
      return false;
    }
    allowed := Grant(p, key, kind, name, hash);
  }

  /** Ask for the one-call grant under a fresh identity. */
  method Grant(p: Pass, key: string, kind: CreateKind, name: string, hash: string) returns (allowed: bool)
    requires p.Fine()
    modifies p`marks, p.keeper`status, p.keeper.file`status
    ensures p.Fine() && old(p.marks) <= p.marks && |p.marks| == |old(p.marks)| + 1
    ensures p.marks[|old(p.marks)|].Wrote? && p.marks[|old(p.marks)|].op.PersistIssue?
            && p.marks[|old(p.marks)|].ok == allowed
    ensures allowed ==> StageOf(p.marks) == Granted(CreateSlot(key)) && p.keeper.file.status == p.keeper.status
                        && LiveIssue(p.keeper.status, CreateSlot(key)) == Ok(p.marks[|old(p.marks)|].op.id)
  {
    var id := MintIssue();
    var now: int := *;
    ghost var before := p.keeper.status;
    allowed := p.Persist(PersistIssue(key, kind, name, hash, id, now));
    if allowed {
      IssueIsLive(before, p.keeper.status, key, kind, name, hash, id, now);
    }
  }

  lemma IssueIsLive(s: Status, d: Status, key: string, kind: CreateKind, name: string, hash: string, id: string,
      now: int)
    requires Perform(PersistIssue(key, kind, name, hash, id, now), s) == Ok(d)
    ensures s != d && LiveIssue(d, CreateSlot(key)) == Ok(id)
  {
    OpensFromUnaccounted(PersistIssue(key, kind, name, hash, id, now), s, d, CreateSlot(key), id);
    assert s.creates[key].phase == Intent && d.creates[key].phase == Issued;
  }

  /** An object already listed is recorded, never created again. */
  method AnchorFound(p: Pass, key: string, kind: CreateKind, name: string, hash: string, uuid: string)
      returns (r: Outcome<string>)
    requires p.Fine()
    modifies p`marks, p.keeper`status, p.keeper.file`status
    ensures p.Fine() && CreatesOnly(old(p.marks), p.marks, {})
    ensures Calm(old(p.marks), p.marks)
    ensures r.Ok? ==> r.value == uuid && AnchoredTo(p.keeper.status, key, kind, name, hash, uuid)
    ensures !PastIntent(old(p.keeper.status), key) ==>
              p.marks == old(p.marks) + [Wrote(Adopt(key, kind, name, hash, uuid), r.Ok?)]
    ensures PastIntent(old(p.keeper.status), key) ==>
              p.marks == old(p.marks)
                  || p.marks == old(p.marks) + [Wrote(Materialize(key, kind, name, hash, uuid), r.Ok?)]
  {
    if key !in p.keeper.status.creates || p.keeper.status.creates[key].phase == Intent {
      var adopted := Record(p, Adopt(key, kind, name, hash, uuid));
      return if adopted then Ok(uuid) else Fail;
    }
    var attempt := p.keeper.status.creates[key];
    if !ValidCreateAttempt(attempt, kind, name, hash) {
      return Fail;
    }
    if attempt.phase == Issued || attempt.phase == Rejected {
      var anchored := Record(p, Materialize(key, kind, name, hash, uuid));
      return if anchored then Ok(uuid) else Fail;
    }
    return if EqualFold(attempt.uuid, uuid) then Ok(uuid) else Fail;
  }

  /** A recorded local block whose object is absent is cleared; the caller retries later. */
  method ClearIfRejected(p: Pass, key: string, kind: CreateKind, name: string, hash: string) returns (stop: bool)
    requires p.Fine()
    modifies p`marks, p.keeper`status, p.keeper.file`status
    ensures p.Fine() && CreatesOnly(old(p.marks), p.marks, {})
    ensures Calm(old(p.marks), p.marks)
    ensures !stop ==> p.marks == old(p.marks) && p.keeper.status == old(p.keeper.status)
    ensures !stop && key in p.keeper.status.creates ==>
              ValidCreateAttempt(p.keeper.status.creates[key], kind, name, hash)
                  && p.keeper.status.creates[key].phase != Rejected
  {
    if key !in p.keeper.status.creates {
      return false;
    }
    if !ValidCreateAttempt(p.keeper.status.creates[key], kind, name, hash) {
      return true;
    }
    if p.keeper.status.creates[key].phase == Rejected {
      var _ := p.Persist(ClearRejection(key, kind, name, hash));
      return true;
    }
    return false;
  }

  /** A call blocked locally: record the rejection first, then let a fresh read decide. */
  method ResolveBlocked(p: Pass, key: string, kind: CreateKind, name: string, hash: string) returns (r: Outcome<string>)
    requires p.Fine() && StageOf(p.marks) == Stopped(CreateSlot(key))
    modifies p`marks, p.keeper`status, p.keeper.file`status
    ensures p.Fine() && CreatesOnly(old(p.marks), p.marks, {})
    ensures |old(p.marks)| < |p.marks| && p.marks[|old(p.marks)|].Wrote?
            && p.marks[|old(p.marks)|].op == Reject(key, kind, name, hash)
    ensures r.Ok? ==> AnchoredTo(p.keeper.status, key, kind, name, hash, r.value)
  {
    var recorded := p.Persist(Reject(key, kind, name, hash));
    if !recorded {
      return Fail;
    }
    var readback: Authority := *;
    var uuid: string := *;
    if readback == Unproven {
      return Fail;
    }
    if readback == Missing {
      var _ := p.Persist(ClearRejection(key, kind, name, hash));
      return Fail;
    }
    var anchored := Record(p, Materialize(key, kind, name, hash, uuid));
    return if anchored then Ok(uuid) else Fail;
  }

  /** With the grant in hand: unproven authority hands it back, an object that appeared meanwhile
      is anchored instead of created, and only a fresh proof of absence sends the call. */
  method CreateGranted(p: Pass, key: string, kind: CreateKind, name: string, hash: string)
      returns (r: Outcome<string>, sent: bool)
    requires p.Fine() && StageOf(p.marks) == Granted(CreateSlot(key))
    modifies p`marks, p.keeper`status, p.keeper.file`status
    ensures p.Fine() && CreatesOnly(old(p.marks), p.marks, {key})
    ensures r.Ok? ==> AnchoredTo(p.keeper.status, key, kind, name, hash, r.value)
  {
    sent := false;
    var authority: Authority := *;
    var uuid: string := *;
    if authority == Unproven {
      var _ := p.Persist(ResetIssue(key, kind, name, hash));
      return Fail, false;
    }
    if authority == Missing {
      sent := true;
      var blocked := p.Call(CreateSlot(key));
      ghost var called := p.marks;
      if blocked {
        r := ResolveBlocked(p, key, kind, name, hash);
        CreatesOnlyThen(old(p.marks), called, p.marks, {key}, {});
        return;
      }
      var readback: Authority := *;
      if readback != Present {
        return Fail, true;
      }
    }
    var anchored := Record(p, Materialize(key, kind, name, hash, uuid));
    r := if anchored then Ok(uuid) else Fail;
  }

  /** A managed firewall: anchor what is listed, else create it once and anchor the readback. The
      result shows the firewall as this pass listed it or read it back. */
  method EnsureFirewall(p: Pass, key: string, name: string, hash: string, found: Outcome<FirewallView>)
      returns (r: Outcome<FirewallView>)
    requires p.Fine()
    modifies p`marks, p.keeper`status, p.keeper.file`status
    ensures p.Fine() && CreatesOnly(old(p.marks), p.marks, {key})
    ensures found.Ok? ==> CreatesOnly(old(p.marks), p.marks, {}) && (r.Ok? ==> r == found)
    ensures PastIntent(old(p.keeper.status), key) ==> CreatesOnly(old(p.marks), p.marks, {})
    ensures r.Ok? ==> AnchoredTo(p.keeper.status, key, Firewall, name, hash, r.value.uuid)
    ensures found.Fail? && r.Ok? ==> ReadSince(p.marks, |old(p.marks)|, r.value)
  {
    if found.Ok? {
      var anchored := AnchorFound(p, key, Firewall, name, hash, found.value.uuid);
      return if anchored.Ok? then found else Fail;
    }
    var cleared := ClearIfRejected(p, key, Firewall, name, hash);
    if cleared {
      return Fail;
    }
    var allowed, _ := Authorize(p, key, Firewall, name, hash);
    if !allowed {
      return Fail;
    }
    ghost var granted := p.marks;
    var created, sent := CreateGranted(p, key, Firewall, name, hash);
    CreatesOnlyThen(old(p.marks), granted, p.marks, {}, {key});
    var answered: bool := *;   // a call that reported an error is never a success
    if created.Fail? || (sent && !answered) {
      return Fail;
    }
    var view := p.Inspect(created.value);
    assert p.marks[|p.marks| - 1] == Saw(view);
    return Ok(view);
  }

  /** The exact firewall relation of one VM: success means that since `lo` this pass read the VM
      behind this very firewall and that the ledger holds that relation as anchored. */
  method EnsureAssignment(p: Pass, key: string, firewall: FirewallView, vm: string, hash: string, ghost lo: nat)
      returns (ok: bool)
    requires p.Fine() && lo <= |p.marks| && ReadSince(p.marks, lo, firewall)
    modifies p`marks, p.keeper`status, p.keeper.file`status
    ensures p.Fine() && CreatesOnly(old(p.marks), p.marks, {key})
    ensures PastIntent(old(p.keeper.status), key) ==> CreatesOnly(old(p.marks), p.marks, {})
    ensures ok ==> RelationIn(p.start, p.marks, lo, |p.marks|, key, firewall.uuid, vm, hash)
    ensures ok ==> Recorded(p.keeper.status, key, firewall.uuid + "/" + vm, hash)
  {
    if !IsUUID(firewall.uuid) || !IsUUID(vm) {
      return false;
    }
    var name := firewall.uuid + "/" + vm;
    if vm in firewall.vms {
      ghost var seen: nat :| lo <= seen < |p.marks| && p.marks[seen] == Saw(firewall);
      var anchored := AnchorFound(p, key, FirewallAssignment, name, hash, vm);
      ok := anchored.Ok?;
      if ok { RelationNow(p.start, p.marks, lo, seen, key, firewall.uuid, vm, hash); }
    } else {
      ok := AssignUnlisted(p, key, firewall.uuid, vm, hash);
      if ok {
        RelationStays(p.start, p.marks, p.marks, |old(p.marks)|, |p.marks|, lo, |p.marks|, key, firewall.uuid, vm,
            hash);
      }
    }
  }

  /** The listing does not show the relation: clear a settled rejection, wait for an issued call,
      or assign. */
  method AssignUnlisted(p: Pass, key: string, firewall: string, vm: string, hash: string) returns (ok: bool)
    requires p.Fine()
    modifies p`marks, p.keeper`status, p.keeper.file`status
    ensures p.Fine() && CreatesOnly(old(p.marks), p.marks, {key})
    ensures PastIntent(old(p.keeper.status), key) ==> CreatesOnly(old(p.marks), p.marks, {})
    ensures ok ==> RelationIn(p.start, p.marks, |old(p.marks)|, |p.marks|, key, firewall, vm, hash)
    ensures ok ==> Recorded(p.keeper.status, key, firewall + "/" + vm, hash)
  {
    var cleared := ClearIfRejected(p, key, FirewallAssignment, firewall + "/" + vm, hash);
    if cleared {
      return false;
    }
    if key in p.keeper.status.creates && p.keeper.status.creates[key].phase != Intent {
      ok := AwaitIssued(p, key, firewall, vm, hash);
    } else {
      ok := AssignOnce(p, key, firewall, vm, hash);
    }
  }

  /** An assignment past its intent is only ever read, never posted again. */
  method AwaitIssued(p: Pass, key: string, firewall: string, vm: string, hash: string) returns (ok: bool)
    requires p.Fine() && Lookup(p.keeper.status, key, FirewallAssignment, firewall + "/" + vm, hash).Ok?
    requires p.keeper.status.creates[key].phase != Intent && p.keeper.status.creates[key].phase != Rejected
    modifies p`marks, p.keeper`status, p.keeper.file`status
    ensures p.Fine() && CreatesOnly(old(p.marks), p.marks, {})
    ensures ok ==> RelationIn(p.start, p.marks, |old(p.marks)|, |p.marks|, key, firewall, vm, hash)
    ensures ok ==> Recorded(p.keeper.status, key, firewall + "/" + vm, hash)
  {
    if p.keeper.status.creates[key].phase == Issued {
      var seen;
      seen, ok := ReadAndRecord(p, firewall, vm, Materialize(key, FirewallAssignment, firewall + "/" + vm, hash, vm));
      return;
    }
    var seen := p.ReadRelation(firewall, vm);
    ok := seen == Ok(true);
    if ok { RelationNow(p.start, p.marks, |old(p.marks)|, |old(p.marks)|, key, firewall, vm, hash); }
  }

  /** Read the relation; record it when present. */
  method ReadAndRecord(p: Pass, firewall: string, vm: string, op: Op) returns (seen: Outcome<bool>, ok: bool)
    requires p.Fine() && (op.Materialize? || op.Adopt?) && op.kind == FirewallAssignment
             && op.name == firewall + "/" + vm
    modifies p`marks, p.keeper`status, p.keeper.file`status
    ensures p.Fine() && CreatesOnly(old(p.marks), p.marks, {})
    ensures seen != Ok(true) ==>
              !ok && StageOf(p.marks) == StageOf(old(p.marks)) && p.keeper.status == old(p.keeper.status)
    ensures ok ==> RelationIn(p.start, p.marks, |old(p.marks)|, |p.marks|, op.key, firewall, vm, op.hash)
    ensures ok ==> Recorded(p.keeper.status, op.key, firewall + "/" + vm, op.hash)
  {
    ok := false;
    seen := p.ReadRelation(firewall, vm);
    if seen == Ok(true) {
      ghost var read := p.marks;
      ok := Record(p, op);
      assert p.marks[|old(p.marks)|] == read[|old(p.marks)|];
      if ok { RelationNow(p.start, p.marks, |old(p.marks)|, |old(p.marks)|, op.key, firewall, vm, op.hash); }
    }
  }

  /** The one assignment POST: read inside the gate, authorize, read again, prove the VM, send,
      read back. */
  method AssignOnce(p: Pass, key: string, firewall: string, vm: string, hash: string) returns (ok: bool)
    requires p.Fine()
    modifies p`marks, p.keeper`status, p.keeper.file`status
    ensures p.Fine() && CreatesOnly(old(p.marks), p.marks, {key})
    ensures ok ==> RelationIn(p.start, p.marks, |old(p.marks)|, |p.marks|, key, firewall, vm, hash)
    ensures ok ==> Recorded(p.keeper.status, key, firewall + "/" + vm, hash)
  {
    var inGate;
    inGate, ok := ReadAndRecord(p, firewall, vm, Adopt(key, FirewallAssignment, firewall + "/" + vm, hash, vm));
    if inGate != Ok(false) {
      return;
    }
    ghost var read := p.marks;
    var allowed, _ := Authorize(p, key, FirewallAssignment, firewall + "/" + vm, hash);
    CreatesOnlyThen(old(p.marks), read, p.marks, {}, {});
    if !allowed {
      return false;
    }
    ghost var granted := p.marks;
    ok := AssignGranted(p, key, firewall, vm, hash);
    CreatesOnlyThen(old(p.marks), granted, p.marks, {}, {key});
    if ok {
      RelationStays(p.start, p.marks, p.marks, |granted|, |p.marks|, |old(p.marks)|, |p.marks|, key, firewall, vm,
          hash);
    }
  }

  method AssignGranted(p: Pass, key: string, firewall: string, vm: string, hash: string) returns (ok: bool)
    requires p.Fine() && StageOf(p.marks) == Granted(CreateSlot(key))
    modifies p`marks, p.keeper`status, p.keeper.file`status
    ensures p.Fine() && CreatesOnly(old(p.marks), p.marks, {key})
    ensures ok ==> RelationIn(p.start, p.marks, |old(p.marks)|, |p.marks|, key, firewall, vm, hash)
    ensures ok ==> Recorded(p.keeper.status, key, firewall + "/" + vm, hash)
  {
    var afterGrant;
    afterGrant, ok :=
        ReadAndRecord(p, firewall, vm, Materialize(key, FirewallAssignment, firewall + "/" + vm, hash, vm));
    if afterGrant == Ok(true) {
      return;
    }
    ghost var read := p.marks;
    var vmOwned: bool := *;
    if afterGrant == Fail || !vmOwned {
      var _ := p.Persist(ResetIssue(key, FirewallAssignment, firewall + "/" + vm, hash));
      CreatesOnlyThen(old(p.marks), read, p.marks, {}, {});
      return false;
    }
    ok := PostAssignment(p, key, firewall, vm, hash);
    CreatesOnlyThen(old(p.marks), read, p.marks, {}, {key});
    if ok {
      RelationStays(p.start, p.marks, p.marks, |read|, |p.marks|, |old(p.marks)|, |p.marks|, key, firewall, vm, hash);
    }
  }

  method PostAssignment(p: Pass, key: string, firewall: string, vm: string, hash: string) returns (ok: bool)
    requires p.Fine() && StageOf(p.marks) == Granted(CreateSlot(key))
    modifies p`marks, p.keeper`status, p.keeper.file`status
    ensures p.Fine() && CreatesOnly(old(p.marks), p.marks, {key})
    ensures ok ==> RelationIn(p.start, p.marks, |old(p.marks)|, |p.marks|, key, firewall, vm, hash)
    ensures ok ==> Recorded(p.keeper.status, key, firewall + "/" + vm, hash)
  {
    var blocked := p.Call(CreateSlot(key));
    ghost var called := p.marks;
    var seen;
    seen, ok := ReadAndRecord(p, firewall, vm, Materialize(key, FirewallAssignment, firewall + "/" + vm, hash, vm));
    ghost var read := p.marks;
    CreatesOnlyThen(old(p.marks), called, read, {key}, {});
    if seen != Ok(true) && blocked {
      ok := ResolveBlockedAssignment(p, key, firewall, vm, hash);
      CreatesOnlyThen(old(p.marks), read, p.marks, {key}, {});
      if ok {
        RelationStays(p.start, p.marks, p.marks, |read|, |p.marks|, |old(p.marks)|, |p.marks|, key, firewall, vm, hash);
      }
    } else if ok {
      RelationStays(p.start, p.marks, p.marks, |called|, |p.marks|, |old(p.marks)|, |p.marks|, key, firewall, vm, hash);
    }
  }

  method ResolveBlockedAssignment(p: Pass, key: string, firewall: string, vm: string, hash: string) returns (ok: bool)
    requires p.Fine() && StageOf(p.marks) == Stopped(CreateSlot(key))
    modifies p`marks, p.keeper`status, p.keeper.file`status
    ensures p.Fine() && CreatesOnly(old(p.marks), p.marks, {})
    ensures ok ==> RelationIn(p.start, p.marks, |old(p.marks)|, |p.marks|, key, firewall, vm, hash)
    ensures ok ==> Recorded(p.keeper.status, key, firewall + "/" + vm, hash)
  {
    var recorded := p.Persist(Reject(key, FirewallAssignment, firewall + "/" + vm, hash));
    if !recorded {
      return false;
    }
    ghost var before := p.marks;
    var proof;
    proof, ok := ReadAndRecord(p, firewall, vm, Materialize(key, FirewallAssignment, firewall + "/" + vm, hash, vm));
    ghost var read := p.marks;
    CreatesOnlyThen(old(p.marks), before, p.marks, {}, {});
    if ok {
      RelationStays(p.start, p.marks, p.marks, |before|, |p.marks|, |old(p.marks)|, |p.marks|, key, firewall, vm, hash);
    }
    if proof == Ok(false) {
      var _ := p.Persist(ClearRejection(key, FirewallAssignment, firewall + "/" + vm, hash));
      CreatesOnlyThen(old(p.marks), read, p.marks, {}, {});
    }
  }

  /** Since `lo`, the VM's address was read carrying its name. */
  ghost predicate NamedSince(marks: seq<Mark>, lo: nat, resource: string, vm: string) {
    exists i: nat :: lo <= i < |marks| && marks[i] == SawName(resource, vm, true)
  }

  lemma NameStays(a: seq<Mark>, b: seq<Mark>, lo: nat, to: nat, resource: string, vm: string)
    requires a <= b && to <= lo && NamedSince(a, lo, resource, vm)
    ensures NamedSince(b, to, resource, vm)
  {
    var i: nat :| lo <= i < |a| && a[i] == SawName(resource, vm, true);
    assert b[i] == a[i];
  }

  /** Naming the auto-assigned address of a VM: at most one rename call, success only once this
      pass read the named address and its receipt is anchored to the VM. */
  method EnsureAddressName(p: Pass, key: string, resource: string, hash: string, vm: string) returns (ok: bool)
    requires p.Fine()
    modifies p`marks, p.keeper`status, p.keeper.file`status
    ensures p.Fine() && CreatesOnly(old(p.marks), p.marks, {key}) && Calm(old(p.marks), p.marks)
    ensures PastIntent(old(p.keeper.status), key) ==> CreatesOnly(old(p.marks), p.marks, {})
    ensures ok ==> NamedSince(p.marks, |old(p.marks)|, resource, vm)
                   && AnchoredTo(p.keeper.status, key, FloatingIPUpdate, resource, hash, vm)
  {
    var listed := p.ReadName(resource, vm);
    ghost var read := p.marks;
    if listed == Unproven {
      return false;
    }
    ghost var mine := if PastIntent(p.keeper.status, key) then {} else {key};
    assert listed == Present ==> read[|old(p.marks)|] == SawName(resource, vm, true);
    ok := SettleName(p, key, resource, hash, vm, listed == Present, |old(p.marks)|);
    CreatesOnlyThen(old(p.marks), read, p.marks, {}, mine);
    CalmTwice(old(p.marks), read, p.marks);
  }

  /** Record a name that was read, or give the address its name. */
  method SettleName(p: Pass, key: string, resource: string, hash: string, vm: string, named: bool, ghost lo: nat)
      returns (ok: bool)
    requires p.Fine() && lo <= |p.marks| && (named ==> NamedSince(p.marks, lo, resource, vm))
    modifies p`marks, p.keeper`status, p.keeper.file`status
    ensures p.Fine() && CreatesOnly(old(p.marks), p.marks, if PastIntent(old(p.keeper.status), key) then {}
            else {key}) && Calm(old(p.marks), p.marks)
    ensures ok ==> NamedSince(p.marks, lo, resource, vm)
                   && AnchoredTo(p.keeper.status, key, FloatingIPUpdate, resource, hash, vm)
  {
    if named {
      var anchored := AnchorFound(p, key, FloatingIPUpdate, resource, hash, vm);
      NameStays(old(p.marks), p.marks, lo, lo, resource, vm);
      return anchored.Ok?;
    }
    ok := NameUnlisted(p, key, resource, hash, vm);
    if ok { NameStays(p.marks, p.marks, |old(p.marks)|, lo, resource, vm); }
  }

  /** The address does not carry the name yet: clear a settled rejection, read an issued rename
      back, or rename. */
  method NameUnlisted(p: Pass, key: string, resource: string, hash: string, vm: string) returns (ok: bool)
    requires p.Fine()
    modifies p`marks, p.keeper`status, p.keeper.file`status
    ensures p.Fine() && CreatesOnly(old(p.marks), p.marks, {key}) && Calm(old(p.marks), p.marks)
    ensures PastIntent(old(p.keeper.status), key) ==> CreatesOnly(old(p.marks), p.marks, {})
    ensures ok ==> NamedSince(p.marks, |old(p.marks)|, resource, vm)
                   && AnchoredTo(p.keeper.status, key, FloatingIPUpdate, resource, hash, vm)
  {
    var cleared := ClearIfRejected(p, key, FloatingIPUpdate, resource, hash);
    if cleared {
      return false;
    }
    if key in p.keeper.status.creates && p.keeper.status.creates[key].phase != Intent {
      if p.keeper.status.creates[key].phase != Issued {
        return false;
      }
      var state;
      state, ok := ReadNameAndRecord(p, key, resource, hash, vm);
      return;
    }
    ok := RenameOnce(p, key, resource, hash, vm);
  }

  /** Read the address; record the rename when the name is there. */
  method ReadNameAndRecord(p: Pass, key: string, resource: string, hash: string, vm: string)
      returns (state: Authority, ok: bool)
    requires p.Fine()
    modifies p`marks, p.keeper`status, p.keeper.file`status
    ensures p.Fine() && CreatesOnly(old(p.marks), p.marks, {}) && Calm(old(p.marks), p.marks)
    ensures state != Present ==> !ok && StageOf(p.marks) == StageOf(old(p.marks))
    ensures ok ==> NamedSince(p.marks, |old(p.marks)|, resource, vm)
                   && AnchoredTo(p.keeper.status, key, FloatingIPUpdate, resource, hash, vm)
  {
    ok := false;
    state := p.ReadName(resource, vm);
    if state == Present {
      ok := Record(p, Materialize(key, FloatingIPUpdate, resource, hash, vm));
      assert p.marks[|old(p.marks)|] == SawName(resource, vm, true);
    }
  }

  method RenameOnce(p: Pass, key: string, resource: string, hash: string, vm: string) returns (ok: bool)
    requires p.Fine()
    modifies p`marks, p.keeper`status, p.keeper.file`status
    ensures p.Fine() && CreatesOnly(old(p.marks), p.marks, {key}) && Calm(old(p.marks), p.marks)
    ensures ok ==> NamedSince(p.marks, |old(p.marks)|, resource, vm)
                   && AnchoredTo(p.keeper.status, key, FloatingIPUpdate, resource, hash, vm)
  {
    var allowed, _ := Authorize(p, key, FloatingIPUpdate, resource, hash);
    if !allowed {
      return false;
    }
    ghost var granted := p.marks;
    ok := RenameGranted(p, key, resource, hash, vm);
    CreatesOnlyThen(old(p.marks), granted, p.marks, {}, {key});
    CalmTwice(old(p.marks), granted, p.marks);
    if ok { NameStays(p.marks, p.marks, |granted|, |old(p.marks)|, resource, vm); }
  }

  /** With the grant in hand: an unproven address hands it back, a name that appeared meanwhile is
      recorded, and only an address without the name is renamed. */
  method RenameGranted(p: Pass, key: string, resource: string, hash: string, vm: string) returns (ok: bool)
    requires p.Fine() && StageOf(p.marks) == Granted(CreateSlot(key))
    modifies p`marks, p.keeper`status, p.keeper.file`status
    ensures p.Fine() && CreatesOnly(old(p.marks), p.marks, {key}) && Calm(old(p.marks), p.marks)
    ensures ok ==> NamedSince(p.marks, |old(p.marks)|, resource, vm)
                   && AnchoredTo(p.keeper.status, key, FloatingIPUpdate, resource, hash, vm)
  {
    var state;
    state, ok := ReadNameAndRecord(p, key, resource, hash, vm);
    if state == Present {
      return;
    }
    if state == Unproven {
      ghost var read := p.marks;
      var _ := p.Persist(ResetIssue(key, FloatingIPUpdate, resource, hash));
      CreatesOnlyThen(old(p.marks), read, p.marks, {}, {});
      CalmTwice(old(p.marks), read, p.marks);
      return false;
    }
    ghost var read := p.marks;
    var blocked := p.Call(CreateSlot(key));
    ghost var called := p.marks;
    CreatesOnlyThen(old(p.marks), read, called, {}, {key});
    CalmTwice(old(p.marks), read, called);
    ok := SettleRename(p, key, resource, hash, vm, blocked);
    CreatesOnlyThen(old(p.marks), called, p.marks, {key}, {});
    CalmTwice(old(p.marks), called, p.marks);
    if ok { NameStays(p.marks, p.marks, |called|, |old(p.marks)|, resource, vm); }
  }

  /** After the rename call: a local block is recorded first, then the readback decides. */
  method SettleRename(p: Pass, key: string, resource: string, hash: string, vm: string, blocked: bool)
      returns (ok: bool)
    requires p.Fine() && (blocked ==> StageOf(p.marks) == Stopped(CreateSlot(key)))
    modifies p`marks, p.keeper`status, p.keeper.file`status
    ensures p.Fine() && CreatesOnly(old(p.marks), p.marks, {}) && Calm(old(p.marks), p.marks)
    ensures ok ==> NamedSince(p.marks, |old(p.marks)|, resource, vm)
                   && AnchoredTo(p.keeper.status, key, FloatingIPUpdate, resource, hash, vm)
  {
    if blocked {
      var recorded := p.Persist(Reject(key, FloatingIPUpdate, resource, hash));
      if !recorded {
        return false;
      }
    }
    ghost var before := p.marks;
    ok := ConfirmRename(p, key, resource, hash, vm, blocked);
    CreatesOnlyThen(old(p.marks), before, p.marks, {}, {});
    CalmTwice(old(p.marks), before, p.marks);
    if ok { NameStays(p.marks, p.marks, |before|, |old(p.marks)|, resource, vm); }
    var answered: bool := *;   // a call that reported an error is never a success
    ok := ok && answered;
  }

  /** Read the address back: record its name, or clear a block whose rename did not happen. */
  method ConfirmRename(p: Pass, key: string, resource: string, hash: string, vm: string, blocked: bool)
      returns (ok: bool)
    requires p.Fine()
    modifies p`marks, p.keeper`status, p.keeper.file`status
    ensures p.Fine() && CreatesOnly(old(p.marks), p.marks, {}) && Calm(old(p.marks), p.marks)
    ensures ok ==> NamedSince(p.marks, |old(p.marks)|, resource, vm)
                   && AnchoredTo(p.keeper.status, key, FloatingIPUpdate, resource, hash, vm)
  {
    var state;
    state, ok := ReadNameAndRecord(p, key, resource, hash, vm);
    ghost var read := p.marks;
    if blocked && state == Missing {
      var _ := p.Persist(ClearRejection(key, FloatingIPUpdate, resource, hash));
      CreatesOnlyThen(old(p.marks), read, p.marks, {}, {});
      CalmTwice(old(p.marks), read, p.marks);
    }
  }
}

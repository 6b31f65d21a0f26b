/** The removal procedures: issue, re-prove authority, call, observe absence twice, and the
    rollback of a malformed or unprotected VM. */
module RemovalDrivers {
  import opened Outcomes
  import opened Ledger
  import opened LedgerRules
  import opened LedgerRuns
  import opened ControllerPass

  /** Trace position `i` is fit for working on one removal receipt: it writes no new VM removal
      receipt, calls nothing but this receipt's slots, a firewall DELETE directly follows its granted
      issue and a read that listed the receipt's own firewall without assignments, and an absence is
      written directly after a read of the receipt's target that showed it. */
  ghost predicate Fits(start: Status, kind: RemovalKind, key: string, marks: seq<Mark>, lo: nat, i: nat)
    requires lo <= i < |marks|
  {
    match marks[i]
    case Called(slot, _) =>
      && slot.RemovalSlot? && slot.key == key
      && (slot.action == DeleteFirewall ==> kind == FirewallRemoval && FreeAndIssued(start, marks, lo, i, key))
    case Wrote(op, _) =>
      && !WritesVMReceipt(op)
      && (RecordsRead(op) ==> lo < i && marks[i - 1] == Looked(TargetOf(op.seen), op.sight))
    case _ => true
  }

  ghost predicate FreeAndIssued(start: Status, marks: seq<Mark>, lo: nat, i: nat, key: string)
    requires lo <= i < |marks|
  {
    && lo + 2 <= i && marks[i - 1].Saw? && marks[i - 1].view.vms == {}
    && key in Replay(start, marks[..i]).removals
       && Replay(start, marks[..i]).removals[key].uuid == marks[i - 1].view.uuid
    && marks[i - 2].Wrote? && marks[i - 2].ok && marks[i - 2].op.IssueRemoval?
    && marks[i - 2].op.key == key && marks[i - 2].op.action == DeleteFirewall
  }

  ghost predicate Removes(start: Status, a: seq<Mark>, b: seq<Mark>, kind: RemovalKind, key: string) {
    a <= b && forall i :: |a| <= i < |b| ==> Fits(start, kind, key, b, |a|, i)
  }

  /** What held at a position still holds there after the trace goes on or is seen from earlier on. */
  lemma FreeStays(start: Status, b: seq<Mark>, c: seq<Mark>, lo: nat, to: nat, i: nat, key: string)
    requires b <= c && to <= lo <= i < |b| && FreeAndIssued(start, b, lo, i, key)
    ensures FreeAndIssued(start, c, to, i, key)
  {
    assert c[..i] == b[..i];
  }

  lemma RemovesThen(start: Status, a: seq<Mark>, b: seq<Mark>, c: seq<Mark>, kind: RemovalKind, key: string)
    requires Removes(start, a, b, kind, key) && Removes(start, b, c, kind, key)
    ensures Removes(start, a, c, kind, key)
  {
    forall i | |a| <= i < |c| ensures Fits(start, kind, key, c, |a|, i) {
      if i < |b| {
        assert Fits(start, kind, key, b, |a|, i) && c[i] == b[i];
        if b[i].Called? && b[i].slot.action == DeleteFirewall { FreeStays(start, b, c, |a|, |a|, i, key); }
      } else {
        assert Fits(start, kind, key, c, |b|, i);
      }
    }
  }

  lemma RemovingCreatesNothing(start: Status, a: seq<Mark>, b: seq<Mark>, kind: RemovalKind, key: string)
    requires Removes(start, a, b, kind, key)
    ensures CreatesOnly(a, b, {})
  {
    forall i | |a| <= i < |b| ensures !(b[i].Called? && b[i].slot.CreateSlot?) {
      assert Fits(start, kind, key, b, |a|, i);
    }
  }

  /** No receipt appears or disappears, and only the one under `key` may differ. */
  predicate OnlyEdits(s: Status, t: Status, key: string) {
    && t.creates == s.creates && t.removals.Keys == s.removals.Keys
    && forall k :: k in s.removals && k != key ==> t.removals[k] == s.removals[k]
  }

  /** Persist one edit of the receipt under `key`. */
  method Edit(p: Pass, key: string, kind: RemovalKind, op: Op) returns (ok: bool)
    requires p.Fine() && EditsReceipt(op) && op.key == key && Allowed(StageOf(p.marks), Wrote(op, true))
             && !RecordsRead(op)
    modifies p`marks, p.keeper`status, p.keeper.file`status
    ensures p.Fine() && p.marks == old(p.marks) + [Wrote(op, ok)] && Removes(p.start, old(p.marks), p.marks, kind, key)
    ensures StageOf(p.marks) == After(StageOf(old(p.marks)), Wrote(op, ok))
    ensures OnlyEdits(old(p.keeper.status), p.keeper.status, key)
    ensures ok ==> Perform(op, old(p.keeper.status)) == Ok(p.keeper.status)
    ensures !ok ==> p.keeper.status == old(p.keeper.status)
  {
    ok := p.Persist(op);
  }

  /** Turn one inventory read into absence evidence: a first sighting is recorded, a second one
      at least `spacing` later settles the receipt, and a target that remains withdraws the evidence.
      Whatever is recorded, this call has just read. */
  method Observe(p: Pass, key: string, kind: RemovalKind, spacing: nat) returns (settled: bool)
    requires p.Fine()
    modifies p`marks, p.keeper`status, p.keeper.file`status
    ensures p.Fine() && Removes(p.start, old(p.marks), p.marks, kind, key)
    ensures Calm(old(p.marks), p.marks)
    ensures forall i :: |old(p.marks)| <= i < |p.marks| ==> !p.marks[i].Called?
    ensures OnlyEdits(old(p.keeper.status), p.keeper.status, key)
    ensures settled ==> SettledIn(p.keeper.status, key)
  {
    if key !in p.keeper.status.removals || !ValidRemoval(p.keeper.status.removals[key]) {
      return false;
    }
    var attempt := p.keeper.status.removals[key];
    var look := p.ReadTarget(TargetOf(attempt));
    if look.Fail? {
      return false;
    }
    if look.value == Gone || Settled(attempt, look.value).Ok? {
      settled := Sighted(p, old(p.marks), key, kind, attempt, look.value, spacing);
      return;
    }
    if attempt.absenceAt.At? && (attempt.kind != FloatingIPRemoval || IsIssuedPhase(attempt.phase)) {
      Withdraw(p, old(p.marks), key, kind, attempt, look.value);
      return false;
    }
    return attempt.phase == Absent;
  }

  /** The target remains: withdraw the first sighting. */
  method Withdraw(p: Pass, ghost before: seq<Mark>, key: string, kind: RemovalKind, attempt: Removal,
      ghost sight: Sight)
    requires p.Fine() && p.marks == before + [Looked(TargetOf(attempt), sight)]
    modifies p`marks, p.keeper`status, p.keeper.file`status
    ensures p.Fine() && Removes(p.start, before, p.marks, kind, key) && Calm(before, p.marks)
    ensures forall i :: |before| <= i < |p.marks| ==> !p.marks[i].Called?
    ensures OnlyEdits(old(p.keeper.status), p.keeper.status, key)
  {
    ghost var read := p.marks;
    var _ := Edit(p, key, kind, ClearAbsence(key, attempt));
    RemovesThen(p.start, before, read, p.marks, kind, key);
  }

  /** The receipt is absent, or past the VM it rolled back. */
  predicate SettledIn(s: Status, key: string) {
    key in s.removals && (s.removals[key].phase == Absent || s.removals[key].phase == RollbackAfterVM)
  }

  /** Put the read that was just made on record. */
  method Sighted(
    p: Pass, ghost before: seq<Mark>, key: string, kind: RemovalKind, attempt: Removal, sight: Sight, spacing: nat)
    returns (settled: bool)
    requires p.Fine() && ValidRemoval(attempt)
    requires p.marks == before + [Looked(TargetOf(attempt), sight)]
    modifies p`marks, p.keeper`status, p.keeper.file`status
    ensures p.Fine() && Removes(p.start, before, p.marks, kind, key) && Calm(before, p.marks)
    ensures forall i :: |before| <= i < |p.marks| ==>
              (p.marks[i].Wrote? && RecordsRead(p.marks[i].op)) || p.marks[i].Looked?
    ensures OnlyEdits(old(p.keeper.status), p.keeper.status, key)
    ensures settled ==> SettledIn(p.keeper.status, key)
  {
    var now: int := *;
    if Settled(attempt, sight).Fail? {
      return false;
    }
    if attempt.absenceAt.NoStamp? {
      var _ := RecordRead(p, before, key, kind, FirstAbsence(key, attempt, sight, now));
      return false;
    }
    if now < attempt.absenceAt.time + spacing {
      return false;
    }
    var finished := RecordRead(p, before, key, kind, FinishAbsence(key, attempt, sight, now, spacing));
    return finished
        && (p.keeper.status.removals[key].phase == Absent || p.keeper.status.removals[key].phase == RollbackAfterVM);
  }

  /** Write an absence directly after the read that showed it. */
  method RecordRead(p: Pass, ghost before: seq<Mark>, key: string, kind: RemovalKind, op: Op) returns (ok: bool)
    requires p.Fine() && RecordsRead(op) && op.key == key && p.marks == before + [Looked(TargetOf(op.seen), op.sight)]
    modifies p`marks, p.keeper`status, p.keeper.file`status
    ensures p.Fine() && p.marks == before + [Looked(TargetOf(op.seen), op.sight), Wrote(op, ok)]
    ensures Removes(p.start, before, p.marks, kind, key) && Calm(before, p.marks)
    ensures OnlyEdits(old(p.keeper.status), p.keeper.status, key)
    ensures ok ==> Perform(op, old(p.keeper.status)) == Ok(p.keeper.status)
  {
    ok := p.Persist(op);
    assert p.marks[|before|] == Looked(TargetOf(op.seen), op.sight);
  }

  /** A second, separately fetched observation once the first one is on record. */
  method ObserveTwice(p: Pass, key: string, kind: RemovalKind, spacing: nat) returns (settled: bool)
    requires p.Fine()
    modifies p`marks, p.keeper`status, p.keeper.file`status
    ensures p.Fine() && Removes(p.start, old(p.marks), p.marks, kind, key)
    ensures Calm(old(p.marks), p.marks)
    ensures forall i :: |old(p.marks)| <= i < |p.marks| ==> !p.marks[i].Called?
    ensures OnlyEdits(old(p.keeper.status), p.keeper.status, key)
    ensures settled ==> SettledIn(p.keeper.status, key)
  {
    settled := Observe(p, key, kind, spacing);
    ghost var first := p.marks;
    if !settled && kind != VMRemoval && key in p.keeper.status.removals && p.keeper.status.removals[key].absenceAt.At? {
      settled := Observe(p, key, kind, spacing);
      RemovesThen(p.start, old(p.marks), first, p.marks, kind, key);
      CalmTwice(old(p.marks), first, p.marks);
    }
  }

  function ActionFrom(phase: RemovalPhase): Outcome<Action> {
    match phase
    case VMIntent => Ok(DeleteVM)
    case RollbackUnassignIntent => Ok(RollbackUnassign)
    case RollbackDeleteIntent => Ok(RollbackDelete)
    case UnassignIntent => Ok(Unassign)
    case DeleteIntent => Ok(Delete)
    case FirewallIntent => Ok(DeleteFirewall)
    case _ => Fail
  }

  /** Issue one destructive call and send it at most once; unproven authority and a call blocked
      locally hand the slot back. `observe` says that readback comes next. */
  method SendRemoval(p: Pass, key: string, kind: RemovalKind, action: Action) returns (observe: bool)
    requires p.Fine() && (action == DeleteFirewall ==> kind == FirewallRemoval)
    modifies p`marks, p.keeper`status, p.keeper.file`status
    ensures p.Fine() && Removes(p.start, old(p.marks), p.marks, kind, key)
    ensures OnlyEdits(old(p.keeper.status), p.keeper.status, key)
  {
    var id := MintIssue();
    var now: int := *;
    var issued := Edit(p, key, kind, IssueRemoval(key, action, id, now));
    if !issued {
      return false;
    }
    observe := SendIssued(p, old(p.marks), key, kind, action);
    if !observe {
      ghost var before := p.marks;
      var _ := Edit(p, key, kind, ResetRemoval(key, action));
      RemovesThen(p.start, old(p.marks), before, p.marks, kind, key);
    }
  }

  /** With the issue persisted, re-prove the authority and send the call; false when the slot is to
      be handed back. */
  method SendIssued(p: Pass, ghost before: seq<Mark>, key: string, kind: RemovalKind, action: Action)
      returns (observe: bool)
    requires p.Fine() && StageOf(p.marks) == Granted(RemovalSlot(key, action))
             && (action == DeleteFirewall ==> kind == FirewallRemoval)
    requires before <= p.marks && |p.marks| == |before| + 1 && p.marks[|before|].Wrote? && p.marks[|before|].ok
    requires p.marks[|before|].op.IssueRemoval? && p.marks[|before|].op.key == key
             && p.marks[|before|].op.action == action
    requires key in p.keeper.status.removals
    modifies p`marks
    ensures p.Fine() && Removes(p.start, before, p.marks, kind, key)
    ensures !observe ==> StageOf(p.marks) == Granted(RemovalSlot(key, action))
                         || StageOf(p.marks) == Stopped(RemovalSlot(key, action))
  {
    var authority: Authority := *;
    if action == DeleteFirewall {
      authority := ReadFirewallAuthority(p, p.keeper.status.removals[key].uuid);
    }
    if authority != Present {
      return authority == Missing;
    }
    var blocked := p.Call(RemovalSlot(key, action));
    CallFits(p.start, before, p.marks, key, kind);
    return !blocked;
  }

  /** Whether the issued firewall DELETE still has its authority: a listing that shows the receipt's
      firewall must show it owned and without assignments; one that does not show it leaves nothing
      to delete. */
  method ReadFirewallAuthority(p: Pass, uuid: string) returns (authority: Authority)
    requires p.Fine()
    modifies p`marks
    ensures p.Fine() && StageOf(p.marks) == StageOf(old(p.marks))
    ensures p.marks == old(p.marks)
            || (|p.marks| == |old(p.marks)| + 1 && old(p.marks) <= p.marks && p.marks[|old(p.marks)|].Saw?)
    ensures authority == Missing ==> p.marks == old(p.marks)
    ensures authority == Present ==> old(p.marks) < p.marks && p.marks[|old(p.marks)|] == Saw(FirewallView(uuid, {}))
  {
    var look := p.ReadFirewall(uuid);
    if look.NoAnswer? {
      return Unproven;
    }
    if look.NotListed? {
      return Missing;
    }
    var owned: bool := *;   // name, billing account, network and managed policy
    return if owned && look.view.vms == {} then Present else Unproven;
  }

  /** An issue, for a firewall the read that found it free, and the call: fit for the receipt. */
  lemma CallFits(start: Status, a: seq<Mark>, b: seq<Mark>, key: string, kind: RemovalKind)
    requires a <= b && |a| + 2 <= |b| <= |a| + 3 && b[|a|].Wrote? && b[|a|].op.IssueRemoval? && b[|a|].ok
             && b[|a|].op.key == key
    requires b[|b| - 1].Called? && b[|b| - 1].slot == RemovalSlot(key, b[|a|].op.action)
    requires |b| == |a| + 3 ==> b[|a| + 1].Saw?
    requires b[|a|].op.action == DeleteFirewall ==>
               kind == FirewallRemoval && |b| == |a| + 3 && b[|a| + 1].view.vms == {}
               && key in Replay(start, b).removals && Replay(start, b).removals[key].uuid == b[|a| + 1].view.uuid
    ensures Removes(start, a, b, kind, key)
  {
    assert Replay(start, b) == Replay(start, b[..|b| - 1]);
  }

  /** One step of a removal receipt's machine. */
  method DriveRemoval(p: Pass, key: string, kind: RemovalKind, spacing: nat) returns (settled: bool)
    requires p.Fine()
    modifies p`marks, p.keeper`status, p.keeper.file`status
    ensures p.Fine() && Removes(p.start, old(p.marks), p.marks, kind, key)
    ensures OnlyEdits(old(p.keeper.status), p.keeper.status, key)
    ensures key in old(p.keeper.status).removals && IsIssuedPhase(old(p.keeper.status).removals[key].phase) ==>
              forall i :: |old(p.marks)| <= i < |p.marks| ==> !p.marks[i].Called?
    ensures settled ==> SettledIn(p.keeper.status, key)
  {
    if key !in p.keeper.status.removals || !ValidRemoval(p.keeper.status.removals[key])
        || p.keeper.status.removals[key].kind != kind {
      return false;
    }
    var phase := p.keeper.status.removals[key].phase;
    if phase == Absent {
      return true;
    }
    if IsIssuedPhase(phase) {
      settled := ObserveTwice(p, key, kind, spacing);
      return;
    }
    if ActionFrom(phase).Fail? {
      return false;
    }
    var observe := SendRemoval(p, key, kind, ActionFrom(phase).value);
    if !observe {
      return false;
    }
    ghost var sent := p.marks;
    settled := ObserveTwice(p, key, kind, spacing);
    RemovesThen(p.start, old(p.marks), sent, p.marks, kind, key);
  }

  /** The keys of the receipts a rollback resolves. */
  datatype RollbackKeys = RollbackKeys(removal: string, create: string, assignment: string, update: string)

  /** Roll one VM back: find its address, delete the VM, clean the address up, then clear every
      receipt of the slot. Bounded to eight steps a call; the receipt resumes it later. */
  method DriveRollback(p: Pass, keys: RollbackKeys, spacing: nat) returns (done: bool)
    requires p.Fine()
    modifies p`marks, p.keeper`status, p.keeper.file`status
    ensures p.Fine() && Removes(p.start, old(p.marks), p.marks, VMRemoval, keys.removal)
    ensures done ==> p.marks != [] && p.marks[|p.marks| - 1].Wrote? && p.marks[|p.marks| - 1].op.ClearRollback?
                     && p.marks[|p.marks| - 1].ok
                     && keys.removal !in p.keeper.status.removals && keys.create !in p.keeper.status.creates
                     && keys.assignment !in p.keeper.status.creates && keys.update !in p.keeper.status.creates
  {
    for step := 0 to 8
      invariant p.Fine() && Removes(p.start, old(p.marks), p.marks, VMRemoval, keys.removal)
    {
      if keys.removal !in p.keeper.status.removals {
        return false;
      }
      var attempt := p.keeper.status.removals[keys.removal];
      ghost var before := p.marks;
      var ok: bool;
      if attempt.phase == Absent {
        done := p.Persist(ClearRollback(keys.removal, attempt, keys.create, keys.assignment, keys.update));
        RemovesThen(p.start, old(p.marks), before, p.marks, VMRemoval, keys.removal);
        return;
      }
      if attempt.phase == RollbackDiscovery || attempt.phase == RollbackAfterVM {
        ok := FollowAddress(p, keys.removal, attempt, spacing);
      } else {
        ok := DriveRemoval(p, keys.removal, VMRemoval, spacing);
        var readable: bool := *;
        ok := ok || (!attempt.phase.VMIntent? && !attempt.phase.VMIssued? && readable);
      }
      RemovesThen(p.start, old(p.marks), before, p.marks, VMRemoval, keys.removal);
      if !ok {
        return false;
      }
    }
    return false;
  }

  /** Before the VM goes, its address must be identified; after it went, the address is observed
      gone twice or scheduled for unassignment or deletion. */
  method FollowAddress(p: Pass, key: string, attempt: Removal, spacing: nat) returns (ok: bool)
    requires p.Fine() && (attempt.phase == RollbackDiscovery || attempt.phase == RollbackAfterVM)
    modifies p`marks, p.keeper`status, p.keeper.file`status
    ensures p.Fine() && Removes(p.start, old(p.marks), p.marks, VMRemoval, key)
    ensures forall i :: |old(p.marks)| <= i < |p.marks| ==> p.marks[i].Wrote? || p.marks[i].Looked?
    ensures attempt.phase == RollbackDiscovery ==>
              && |p.marks| <= |old(p.marks)| + 1
              && forall i :: |old(p.marks)| <= i < |p.marks| ==>
                   p.marks[i].Wrote? && p.marks[i].op.DiscoverAddress? && p.marks[i].op.key == key
    ensures ResumesAsSeen(old(p.marks), p.marks, attempt)
  {
    if attempt.phase == RollbackDiscovery {
      var found: Outcome<string> := *;
      if !found.Ok? {
        return false;
      }
      ok := Edit(p, key, VMRemoval, DiscoverAddress(key, found.value));
      return;
    }
    ok := FollowResidual(p, key, attempt, spacing);
  }

  /** A rollback's address cleanup is scheduled as the read at the start of this part showed the
      address: still attached, or unassigned. */
  ghost predicate ResumesAsSeen(a: seq<Mark>, b: seq<Mark>, attempt: Removal) {
    forall i :: |a| <= i < |b| && b[i].Wrote? && b[i].op.ResumeAddress? ==>
      b[|a|] == Looked(TargetOf(attempt), if b[i].op.attached then Remains else Unassigned)
  }

  /** After the VM went: read its address, and record it gone or schedule what is left to do. */
  method FollowResidual(p: Pass, key: string, attempt: Removal, spacing: nat) returns (ok: bool)
    requires p.Fine()
    modifies p`marks, p.keeper`status, p.keeper.file`status
    ensures p.Fine() && Removes(p.start, old(p.marks), p.marks, VMRemoval, key)
    ensures forall i :: |old(p.marks)| <= i < |p.marks| ==> p.marks[i].Wrote? || p.marks[i].Looked?
    ensures ResumesAsSeen(old(p.marks), p.marks, attempt)
  {
    var look := p.ReadTarget(TargetOf(attempt));
    if look.Fail? || !ValidRemoval(attempt) {
      return false;
    }
    if look.value == Gone {
      ok := Sighted(p, old(p.marks), key, VMRemoval, attempt, Gone, spacing);
      return;
    }
    var address: string := *;
    ghost var read := p.marks;
    ok := ResumeCleanup(p, key, attempt, address, look.value == Remains);
    RemovesThen(p.start, old(p.marks), read, p.marks, VMRemoval, key);
    assert p.marks[|old(p.marks)|] == read[|old(p.marks)|];
  }

  /** A residual address: withdraw the evidence, then schedule its unassignment or deletion. */
  method ResumeCleanup(p: Pass, key: string, attempt: Removal, address: string, attached: bool) returns (ok: bool)
    requires p.Fine()
    modifies p`marks, p.keeper`status, p.keeper.file`status
    ensures p.Fine() && old(p.marks) <= p.marks && Removes(p.start, old(p.marks), p.marks, VMRemoval, key)
    ensures forall i :: |old(p.marks)| <= i < |p.marks| ==> p.marks[i].Wrote?
    ensures forall i :: |old(p.marks)| <= i < |p.marks| && p.marks[i].op.ResumeAddress? ==>
              p.marks[i].op.attached == attached
  {
    ok := Edit(p, key, VMRemoval, ClearAbsence(key, attempt));
    if ok {
      ghost var before := p.marks;
      ok := Edit(p, key, VMRemoval, ResumeAddress(key, address, attached));
      RemovesThen(p.start, old(p.marks), before, p.marks, VMRemoval, key);
    }
  }
}

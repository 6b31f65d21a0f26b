/** Turning an expired firewall assignment into the rollback of exactly the VM it was meant to
    protect: the selection over the fixed slots, and what holds whenever such a rollback is
    written or prevented. */
module ProtectionRollback {
  import opened Outcomes
  import opened Text
  import opened Ledger
  import opened LedgerRules
  import opened LedgerRuns
  import opened LedgerShape

  /** One fixed bootstrap slot: its ledger keys and its current and legacy deterministic names. */
  datatype SlotNames = SlotNames(
    assignmentKey: string, vmKey: string, removalKey: string, firewallKey: string,
    currentVM: string, legacyVM: string, currentFirewall: string, legacyFirewall: string,
    currentIP: string, legacyIP: string)

  /** An address name always carries its slot's suffix, so it is never empty. */
  type FixedSlot = s: SlotNames | s.currentIP != "" && s.legacyIP != ""
    witness SlotNames("", "", "", "", "", "", "", "", "-ip", "-ip")

  /** What one slot contributes: nothing, a refusal of the whole selection, or a candidate. */
  datatype Verdict = Skip | Refuse | Expired(candidate: Candidate)

  function SlotTopology(slot: FixedSlot, vm: string, firewall: string): Outcome<string> {
    if vm == slot.currentVM && firewall == slot.currentFirewall then Ok(slot.currentIP)
    else if vm == slot.legacyVM && firewall == slot.legacyFirewall then Ok(slot.legacyIP)
    else Fail
  }

  /** The slot is at rest: no issued assignment, or one that has time left, or one whose VM was
      not created by this ledger. */
  predicate AtRest(s: Status, slot: FixedSlot, now: int, deadline: nat) {
    || slot.assignmentKey !in s.creates
    || s.creates[slot.assignmentKey].phase != Issued
    || (s.creates[slot.assignmentKey].issuedAt.At? && now < s.creates[slot.assignmentKey].issuedAt.time + deadline)
    || (slot.vmKey in s.creates && s.creates[slot.vmKey].phase != Materialized)
  }

  /** `hash` stands for the intent hash of an assignment name in this cluster's location. */
  function Judge(s: Status, slot: FixedSlot, now: int, deadline: nat, hash: string -> string): Verdict {
    if slot.assignmentKey !in s.creates || s.creates[slot.assignmentKey].phase != Issued then Skip
    else
      var assignment := s.creates[slot.assignmentKey];
      if AssignmentFirewall(assignment.name).Fail?
         || !ValidCreateAttempt(assignment, FirewallAssignment, assignment.name, hash(assignment.name)) then Refuse
      else if now < assignment.issuedAt.time + deadline then Skip
      else if slot.vmKey !in s.creates then Refuse
      else
        var vm := s.creates[slot.vmKey];
        if !ValidCreateAttempt(vm, VirtualMachine, vm.name, vm.intentHash) then Refuse
        else if vm.phase != Materialized then Skip
        else JudgeAnchors(s, slot, assignment, vm)
  }

  function JudgeAnchors(s: Status, slot: FixedSlot, assignment: CreateAttempt, vm: CreateAttempt): Verdict
    requires AssignmentFirewall(assignment.name).Ok?
  {
    var vmUUID := Lower(assignment.name[37..]);
    var firewallUUID := AssignmentFirewall(assignment.name).value;
    if !EqualFold(vm.uuid, vmUUID) || (vm.name != slot.currentVM && vm.name != slot.legacyVM) then Refuse
    else if slot.firewallKey !in s.creates then Refuse
    else
      var firewall := s.creates[slot.firewallKey];
      if !ValidCreateAttempt(firewall, Firewall, firewall.name, firewall.intentHash)
         || (firewall.phase != Materialized && firewall.phase != Adopted)
         || !EqualFold(firewall.uuid, firewallUUID) || SlotTopology(slot, vm.name, firewall.name).Fail? then Refuse
      else Expired(Candidate(slot.assignmentKey, slot.vmKey, slot.removalKey, slot.firewallKey, assignment, vm,
           firewall,
                             vm.name, vmUUID, firewallUUID, SlotTopology(slot, vm.name, firewall.name).value))
  }

  /** A candidate carries the ledger's own three receipts and is well chosen; a rollback of it
      would be accepted against the ledger it was selected from. */
  lemma CandidateIsSound(s: Status, slot: FixedSlot, now: int, deadline: nat, hash: string -> string)
    requires Judge(s, slot, now, deadline, hash).Expired?
    ensures var c := Judge(s, slot, now, deadline, hash).candidate;
            WellChosen(c) && StillExpired(s, c, now, deadline) && c.removalKey == slot.removalKey
            && !AtRest(s, slot, now, deadline)
  {
    var name := s.creates[slot.assignmentKey].name;
    LowerKeepsUUID(name[..36]);
  }

  /** Unless its receipts are refused, a slot is passed over exactly when it is at rest. */
  lemma SkippedMeansAtRest(s: Status, slot: FixedSlot, now: int, deadline: nat, hash: string -> string)
    requires !Judge(s, slot, now, deadline, hash).Refuse?
    ensures Judge(s, slot, now, deadline, hash).Skip? <==> AtRest(s, slot, now, deadline)
  {
  }

  datatype Selection = NothingExpired | Chosen(candidate: Candidate) | Refused

  /** No slot among the first n is refused. */
  predicate NoneRefused(s: Status, slots: seq<FixedSlot>, n: nat, now: int, deadline: nat, hash: string -> string)
    requires n <= |slots|
  {
    forall i :: 0 <= i < n ==> !Judge(s, slots[i], now, deadline, hash).Refuse?
  }

  /** Among the first n slots, all but the given one are at rest. */
  predicate OthersAtRest(s: Status, slots: seq<FixedSlot>, n: nat, except: int, now: int, deadline: nat)
    requires n <= |slots|
  {
    forall i :: 0 <= i < n && i != except ==> AtRest(s, slots[i], now, deadline)
  }

  /** Over every ledger and slot list: a candidate is chosen exactly when no slot is refused and
      exactly one of them is not at rest, and then it is that slot's own well-chosen candidate;
      nothing is expired exactly when no slot is refused and all are at rest. */
  method SelectExpired(s: Status, slots: seq<FixedSlot>, now: int, deadline: nat, hash: string -> string)
      returns (r: Selection)
    ensures r.NothingExpired? <==> NoneRefused(s, slots, |slots|, now, deadline, hash)
                                   && OthersAtRest(s, slots, |slots|, -1, now, deadline)
    ensures r.Chosen? <==> NoneRefused(s, slots, |slots|, now, deadline, hash)
                           && exists i :: 0 <= i < |slots| && !AtRest(s, slots[i], now, deadline)
                                          && OthersAtRest(s, slots, |slots|, i, now, deadline)
    ensures r.Chosen? ==> WellChosen(r.candidate) && StillExpired(s, r.candidate, now, deadline)
    ensures r.Chosen? ==> forall i :: 0 <= i < |slots| && !AtRest(s, slots[i], now, deadline) ==>
                            Judge(s, slots[i], now, deadline, hash) == Expired(r.candidate)
  {
    r := NothingExpired;
    ghost var chosen := -1;
    for i := 0 to |slots|
      invariant !r.Refused? && NoneRefused(s, slots, i, now, deadline, hash)
                && OthersAtRest(s, slots, i, chosen, now, deadline)
      invariant r.NothingExpired? ==> chosen == -1
      invariant r.Chosen? ==> 0 <= chosen < i && Judge(s, slots[chosen], now, deadline, hash) == Expired(r.candidate)
    {
      var verdict := Judge(s, slots[i], now, deadline, hash);
      if verdict.Refuse? {
        return Refused;
      }
      SkippedMeansAtRest(s, slots[i], now, deadline, hash);
      if verdict.Expired? {
        if r.Chosen? {
          SkippedMeansAtRest(s, slots[chosen], now, deadline, hash);
          return Refused;
        }
        r := Chosen(verdict.candidate);
        chosen := i;
      }
    }
    if r.Chosen? { CandidateIsSound(s, slots[chosen], now, deadline, hash); }
  }

  /** Whenever an expired-assignment rollback adds a receipt, the stored ledger at that very
      moment holds the assignment unchanged, still issued and past its deadline, the VM receipt
      materialized (not adopted) with the receipt's UUID, and the firewall anchored. */
  lemma RollbackIsJustified(w: World, who: nat, c: Candidate, now: int, deadline: nat, fault: Fault)
    requires Possible(w, Write(who, PersistRollback(c, now, deadline), fault))
    requires var w' := WriteStep(w, who, PersistRollback(c, now, deadline), fault);
             c.removalKey !in w.stored.removals && c.removalKey in w'.stored.removals
    ensures var s := w.stored; var r :=
            WriteStep(w, who, PersistRollback(c, now, deadline), fault).stored.removals[c.removalKey];
            && IssuedAssignment(s, c.assignmentKey) && s.creates[c.assignmentKey] == c.assignment
            && c.assignment.issuedAt.At? && c.assignment.issuedAt.time + deadline <= now
            && c.vmKey in s.creates && s.creates[c.vmKey].phase == Materialized
               && EqualFold(s.creates[c.vmKey].uuid, r.uuid)
            && (exists uuid :: Anchored(s, c.firewallKey, uuid) && EqualFold(uuid, r.firewallUUID))
            && AssignmentFirewall(s.creates[c.assignmentKey].name) == Ok(r.firewallUUID)
            && r.purpose == Rollback && r.phase == RollbackDiscovery
  {
    WriteStores(w, who, PersistRollback(c, now, deadline), fault);
    assert Anchored(w.stored, c.firewallKey, c.firewall.uuid);
  }

  /** A controller that anchors the assignment first prevents the rollback for the rest of the
      generation: no later write of any candidate for that assignment stores anything. */
  lemma MaterializedFirstPreventsRollback(
    w: World, events: seq<Event>, uuid: string, who: nat, c: Candidate, now: int, deadline: nat, fault: Fault)
    requires Anchored(w.stored, c.assignmentKey, uuid)
    requires Generation(Run(w, events), CreateEntry(c.assignmentKey)) == Generation(w, CreateEntry(c.assignmentKey))
    ensures Step(Run(w, events), Write(who, PersistRollback(c, now, deadline), fault)).stored == Run(w, events).stored
  {
    AnchorIsStable(w, events, c.assignmentKey, uuid);
    var v := Run(w, events);
    if Possible(v, Write(who, PersistRollback(c, now, deadline), fault)) {
      WriteStores(v, who, PersistRollback(c, now, deadline), fault);
    }
  }
}

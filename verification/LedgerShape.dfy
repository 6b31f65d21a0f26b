/** What every stored ledger looks like, whatever the run: every receipt is well formed, no two
    issued assignments target one firewall, an anchored UUID never changes, and a removal is
    absent only on spaced evidence. */
module LedgerShape {
  import opened Outcomes
  import opened Text
  import opened AddressPool
  import opened Ledger
  import opened LedgerRules
  import opened LedgerRuns

  /** A write either stores exactly the transition of the stored status or stores nothing. */
  lemma WriteStores(w: World, who: nat, op: Op, fault: Fault)
    requires who in w.controllers
    ensures var w' := WriteStep(w, who, op, fault);
            if SwapOf(w, who, op, fault).committed then Perform(op, w.stored) == Ok(w'.stored)
                else w'.stored == w.stored
  {
  }

  // ----- well-formed receipts -----

  predicate ValidLedger(s: Status) {
    && (forall k :: k in s.creates ==> ValidCreate(s.creates[k]))
    && (forall k :: k in s.removals ==> ValidRemoval(s.removals[k]))
  }

  predicate ValidCreate(a: CreateAttempt) { ValidCreateAttempt(a, a.kind, a.name, a.intentHash) }

  /** A create receipt after a transition is an old one, or the one its mutator just wrote. */
  lemma CreateSource(op: Op, s: Status, d: Status, k: string)
    requires Perform(op, s) == Ok(d) && k in d.creates
    ensures || (k in s.creates && d.creates[k] == s.creates[k])
            || (k !in s.creates && op.PersistIntent?
               && d.creates[k] == CreateAttempt(op.kind, op.name, op.hash, Intent, "", NoStamp, ""))
            || (k !in s.creates && op.Adopt? && IsUUID(op.uuid)
               && d.creates[k] == CreateAttempt(op.kind, op.name, op.hash, Adopted, "", NoStamp, Lower(op.uuid)))
            || (k in s.creates && WrittenOver(op, s.creates[k], d.creates[k]))
  {
    EditsLeaveCreates(op, s, d);
  }

  /** How a mutator overwrites a receipt. */
  predicate WrittenOver(op: Op, a: CreateAttempt, a': CreateAttempt) {
    match op
    case PersistIssue(_, _, _, _, id, now) =>
        a.phase == Intent && a' == a.(phase := Issued, issueID := id, issuedAt := At(now))
    case Materialize(_, _, _, _, uuid) =>
      IsUUID(uuid) && (a.phase == Issued || a.phase == Rejected) && a' == a.(phase := Materialized, uuid := Lower(uuid))
    case Reject(_, _, _, _) => a.phase == Issued && a' == a.(phase := Rejected)
    case ResetIssue(_, _, _, _) => a' == a.(phase := Intent, issueID := "", issuedAt := NoStamp, uuid := "")
    case Adopt(_, _, _, _, uuid) => IsUUID(uuid) && a.phase == Intent && a' == a.(phase := Adopted, uuid := Lower(uuid))
    case _ => false
  }

  lemma PerformKeepsCreatesValid(op: Op, s: Status, d: Status, k: string)
    requires ValidLedger(s) && WellFormed(op) && Perform(op, s) == Ok(d) && k in d.creates
    ensures ValidCreate(d.creates[k])
  {
    CreateSource(op, s, d, k);
    if (op.Materialize? || op.Adopt?) && IsUUID(op.uuid) { LowerKeepsUUID(op.uuid); }
  }

  lemma EditKeepsTarget(op: Op, r: Removal)
    requires EditsReceipt(op) && ValidRemoval(r) && EditReceipt(op, r).Ok?
    ensures ValidTarget(EditReceipt(op, r).value)
  {
    var r' := EditReceipt(op, r).value;
    assert r'.kind == r.kind && r'.purpose == r.purpose && r'.uuid == r.uuid && r'.firewallUUID == r.firewallUUID
           && r'.relatedUUID == r.relatedUUID && r'.name == r.name && r'.floatingIPName == r.floatingIPName;
    if r.kind != VMRemoval { assert r'.floatingIPAddress == r.floatingIPAddress; }
  }

  lemma EditKeepsPhase(op: Op, r: Removal)
    requires EditsReceipt(op) && ValidRemoval(r) && EditReceipt(op, r).Ok?
    ensures var r' := EditReceipt(op, r).value;
            KindAllowsPhase(r'.kind, r'.phase) && (IsRollbackPhase(r'.phase) ==> r'.purpose == Rollback)
  {
  }

  lemma EditKeepsStamps(op: Op, r: Removal)
    requires EditsReceipt(op) && WellFormed(op) && ValidRemoval(r) && EditReceipt(op, r).Ok?
    ensures var r' := EditReceipt(op, r).value;
            && (if IsIssuedPhase(r'.phase) then ValidRemovalIssue(r'.issueID, r'.issuedAt)
               else NoIssue(r'.issueID, r'.issuedAt))
            && !r'.absenceAt.Unreadable? && (r'.absenceAt.At? ==> MayHoldAbsence(r'.phase))
  {
  }

  lemma EditKeepsReceiptValid(op: Op, r: Removal)
    requires EditsReceipt(op) && WellFormed(op) && ValidRemoval(r) && EditReceipt(op, r).Ok?
    ensures ValidRemoval(EditReceipt(op, r).value)
  {
    EditKeepsTarget(op, r);
    EditKeepsPhase(op, r);
    EditKeepsStamps(op, r);
  }

  lemma FreshVMIsValid(purpose: Purpose, name: string, uuid: string, firewallUUID: string, floatingIPName: string)
    requires IsUUID(uuid) && (firewallUUID == "" || IsUUID(firewallUUID))
             && (purpose == Rollback <==> floatingIPName != "")
    ensures ValidRemoval(FreshVMRemoval(purpose, name, uuid, firewallUUID, floatingIPName))
  {
    LowerKeepsUUID(uuid);
    if firewallUUID != "" { LowerKeepsUUID(firewallUUID); }
  }

  lemma FreshOthersAreValid(name: string, uuid: string, address: string, assignedTo: string)
    requires name != ""
    ensures IsUUID(uuid) ==> ValidRemoval(FreshFirewallRemoval(name, uuid))
    ensures IsPublicIPv4(address) && (assignedTo == "" || IsUUID(assignedTo)) ==>
              ValidRemoval(FreshFloatingIPRemoval(name, address, assignedTo))
  {
    if IsUUID(uuid) { LowerKeepsUUID(uuid); }
    if IsUUID(assignedTo) { LowerKeepsUUID(assignedTo); }
  }

  lemma RollbackReceiptIsValid(c: Candidate)
    requires WellChosen(c)
    ensures ValidRemoval(Removal(VMRemoval, c.vmName, c.vmUUID, c.firewallUUID, "", Rollback, RollbackDiscovery,
                                 "", NoStamp, NoStamp, c.floatingIPName, ""))
  {
    LowerKeepsUUID(c.assignment.name[..36]);
    LowerKeepsUUID(c.assignment.name[37..]);
  }

  /** A receipt that a transition inserts is one of the four fresh ones. */
  lemma Inserted(op: Op, s: Status, d: Status, k: string)
    requires Perform(op, s) == Ok(d) && k !in s.removals && k in d.removals
    ensures match op
            case EnsureFloatingIPRemoval(_, name, address, assignedTo) =>
              && d.removals[k] == FreshFloatingIPRemoval(name, address, assignedTo)
              && name != "" && IsPublicIPv4(address) && (assignedTo == "" || IsUUID(assignedTo))
            case EnsureFirewallRemoval(_, name, uuid) =>
                d.removals[k] == FreshFirewallRemoval(name, uuid) && name != "" && IsUUID(uuid)
            case EnsureVMRemoval(_, purpose, name, uuid, firewallUUID, floatingIPName) =>
              && d.removals[k] == FreshVMRemoval(purpose, name, uuid, firewallUUID, floatingIPName)
              && IsUUID(uuid) && (firewallUUID == "" || IsUUID(firewallUUID))
                 && (purpose == Rollback <==> floatingIPName != "")
            case PersistRollback(c, _, _) =>
              d.removals[k] == Removal(VMRemoval, c.vmName, c.vmUUID, c.firewallUUID, "", Rollback, RollbackDiscovery,
                                       "", NoStamp, NoStamp, c.floatingIPName, "")
            case _ => false
  {
  }

  /** A receipt that a transition inserts carries a full target identity. */
  lemma InsertedIsValid(op: Op, s: Status, d: Status, k: string)
    requires WellFormed(op) && Perform(op, s) == Ok(d) && k !in s.removals && k in d.removals
    ensures ValidRemoval(d.removals[k])
  {
    Inserted(op, s, d, k);
    match op
    case EnsureFloatingIPRemoval(_, name, address, assignedTo) => FreshOthersAreValid(name, "", address, assignedTo);
    case EnsureFirewallRemoval(_, name, uuid) => FreshOthersAreValid(name, uuid, "", "");
    case EnsureVMRemoval(_, purpose, name, uuid, firewallUUID, floatingIPName) =>
        FreshVMIsValid(purpose, name, uuid, firewallUUID, floatingIPName);
    case PersistRollback(c, _, _) => RollbackReceiptIsValid(c);
    case _ =>
  }

  lemma PerformKeepsRemovalsValid(op: Op, s: Status, d: Status, k: string)
    requires ValidLedger(s) && WellFormed(op) && Perform(op, s) == Ok(d) && k in d.removals
    ensures ValidRemoval(d.removals[k])
  {
    RemovalSource(op, s, d, k);
    if k !in s.removals {
      InsertedIsValid(op, s, d, k);
    } else if EditsReceipt(op) && op.key == k && EditReceipt(op, s.removals[k]) == Ok(d.removals[k]) {
      EditKeepsReceiptValid(op, s.removals[k]);
    }
  }

  // ----- one unresolved assignment per firewall -----

  predicate IssuedAssignment(s: Status, k: string) {
    k in s.creates && s.creates[k].kind == FirewallAssignment && s.creates[k].phase == Issued
  }

  ghost predicate OneAssignmentPerFirewall(s: Status) {
    && (forall k :: IssuedAssignment(s, k) ==> AssignmentFirewall(s.creates[k].name).Ok?)
    && (forall k, l :: IssuedAssignment(s, k) && IssuedAssignment(s, l) && k != l ==>
          AssignmentFirewall(s.creates[k].name) != AssignmentFirewall(s.creates[l].name))
  }

  lemma AssignmentOrigin(op: Op, s: Status, d: Status, k: string)
    requires Perform(op, s) == Ok(d) && IssuedAssignment(d, k)
    ensures (IssuedAssignment(s, k) && d.creates[k] == s.creates[k])
            || (op.PersistIssue? && op.key == k && MayIssue(s, k, op.kind, op.name) && op.kind == FirewallAssignment
                && d.creates[k].name == op.name)
  {
  }

  lemma PerformKeepsOneAssignment(op: Op, s: Status, d: Status)
    requires OneAssignmentPerFirewall(s) && Perform(op, s) == Ok(d)
    ensures OneAssignmentPerFirewall(d)
  {
    forall k | IssuedAssignment(d, k) ensures AssignmentFirewall(d.creates[k].name).Ok? {
      AssignmentOrigin(op, s, d, k);
    }
    forall k, l | IssuedAssignment(d, k) && IssuedAssignment(d, l) && k != l
      ensures AssignmentFirewall(d.creates[k].name) != AssignmentFirewall(d.creates[l].name)
    {
      AssignmentOrigin(op, s, d, k);
      AssignmentOrigin(op, s, d, l);
    }
  }

  // ----- both, over runs -----

  ghost predicate Shaped(s: Status) {
    ValidLedger(s) && OneAssignmentPerFirewall(s)
  }

  lemma StepKeepsShape(w: World, e: Event)
    requires Shaped(w.stored)
    ensures Shaped(Step(w, e).stored)
  {
    if e.Write? && Possible(w, e) {
      WriteStores(w, e.who, e.op, e.fault);
      if SwapOf(w, e.who, e.op, e.fault).committed {
        var d := Step(w, e).stored;
        forall k | k in d.creates ensures ValidCreate(d.creates[k]) { PerformKeepsCreatesValid(e.op, w.stored, d, k); }
        forall k | k in d.removals ensures ValidRemoval(d.removals[k]) {
          PerformKeepsRemovalsValid(e.op, w.stored, d, k);
        }
        PerformKeepsOneAssignment(e.op, w.stored, d);
      }
    }
  }

  /** Every reachable ledger is well formed and leaves at most one assignment per firewall open. */
  lemma {:induction false} EveryLedgerIsShaped(w: World, events: seq<Event>)
    requires Shaped(w.stored)
    ensures Shaped(Run(w, events).stored)
    decreases |events|
  {
    if events != [] {
      StepKeepsShape(w, events[0]);
      EveryLedgerIsShaped(Step(w, events[0]), events[1..]);
    }
  }

  // ----- anchored identities -----

  predicate Anchored(s: Status, key: string, uuid: string) {
    key in s.creates && (s.creates[key].phase == Materialized || s.creates[key].phase == Adopted)
        && s.creates[key].uuid == uuid
  }

  lemma AnchorKept(op: Op, s: Status, d: Status, key: string, uuid: string)
    requires Perform(op, s) == Ok(d) && Anchored(s, key, uuid)
    ensures Anchored(d, key, uuid) || CreateEntry(key) in Retired(op, s)
  {
  }

  lemma GenerationGrows(w: World, e: Event, entry: Entry)
    ensures Generation(Step(w, e), entry) >= Generation(w, entry)
  {
    if e.Write? && Possible(w, e) { WriteGenerations(w, e.who, e.op, e.fault, entry); }
  }

  lemma {:induction false} GenerationGrowsInRun(w: World, events: seq<Event>, entry: Entry)
    ensures Generation(Run(w, events), entry) >= Generation(w, entry)
    decreases |events|
  {
    if events != [] {
      GenerationGrows(w, events[0], entry);
      GenerationGrowsInRun(Step(w, events[0]), events[1..], entry);
    }
  }

  /** Once a receipt is materialized or adopted, no run of the same generation changes its UUID
      or makes it issuable again. */
  lemma {:induction false} AnchorIsStable(w: World, events: seq<Event>, key: string, uuid: string)
    requires Anchored(w.stored, key, uuid)
    requires Generation(Run(w, events), CreateEntry(key)) == Generation(w, CreateEntry(key))
    ensures Anchored(Run(w, events).stored, key, uuid)
    decreases |events|
  {
    if events != [] {
      var e := events[0];
      var w' := Step(w, e);
      GenerationGrows(w, e, CreateEntry(key));
      GenerationGrowsInRun(w', events[1..], CreateEntry(key));
      if e.Write? && Possible(w, e) {
        WriteStores(w, e.who, e.op, e.fault);
        WriteGenerations(w, e.who, e.op, e.fault, CreateEntry(key));
        if SwapOf(w, e.who, e.op, e.fault).committed { AnchorKept(e.op, w.stored, w'.stored, key, uuid); }
      }
      AnchorIsStable(w', events[1..], key, uuid);
    }
  }

  // ----- evidence behind an absent removal -----

  predicate OfVM(p: RemovalPhase) { p == VMIntent || p == VMIssued }

  predicate AwaitsUnassign(p: RemovalPhase) { p == UnassignIssued || p == RollbackUnassignIssued }

  /** The observation is of what this receipt was about in the phase it was observed in: its VM, its
      firewall, or its address. */
  predicate Targets(o: Observation, r: Removal) {
    KindAllowsPhase(r.kind, o.phase) && o.target == TargetOf(r.(phase := o.phase))
  }

  /** Observation `i` records an inventory read, made before it, that showed what it says. */
  predicate Backed(w: World, i: nat)
    requires i < |w.observations|
  {
    var o := w.observations[i];
    && o.read < |w.readings| && w.readings[o.read].target == o.target && w.readings[o.read].sight == o.sight
    && w.readings[o.read].after <= i
  }

  /** Durable observation `i` records a read of the target of receipt `r` under `key`, in this
      generation. */
  predicate About(w: World, key: string, r: Removal, i: nat) {
    && i < |w.observations| && w.observations[i].key == key && Backed(w, i)
    && w.observations[i].generation == Generation(w, RemovalEntry(key)) && Targets(w.observations[i], r)
  }

  /** A first absence showed the target gone, or an address that is to be unassigned as unassigned. */
  predicate ShowsAbsence(o: Observation) {
    o.sight == Gone || (o.sight == Unassigned && AwaitsUnassign(o.phase))
  }

  /** Observation `i` is the first absence on record in receipt `r`. */
  predicate FirstSeen(w: World, key: string, r: Removal, i: nat) {
    && About(w, key, r, i) && r.absenceAt == At(w.observations[i].time) && w.observations[i].since.Fail?
    && ShowsAbsence(w.observations[i]) && (w.observations[i].sight == Unassigned ==> AwaitsUnassign(r.phase))
    && (OfVM(r.phase) <==> OfVM(w.observations[i].phase))
  }

  /** Two different reads of the target, `spacing` apart; the earlier one showed an absence and was
      recorded as the first one, and the later one settled that. */
  predicate SeenTwice(w: World, key: string, r: Removal, spacing: nat, i: nat, j: nat) {
    && i < j && About(w, key, r, i) && About(w, key, r, j)
    && w.observations[i].read != w.observations[j].read
    && w.observations[i].since.Fail? && w.observations[j].since == Ok(w.observations[i].time)
    && w.observations[i].time + spacing <= w.observations[j].time
    && ShowsAbsence(w.observations[i]) && (OfVM(w.observations[i].phase) <==> OfVM(w.observations[j].phase))
  }

  /** The later read showed the target gone. */
  predicate GoneTwice(w: World, key: string, r: Removal, spacing: nat, i: nat, j: nat) {
    SeenTwice(w, key, r, spacing, i, j) && w.observations[j].sight == Gone
  }

  predicate VMGoneTwice(w: World, key: string, r: Removal, spacing: nat, i: nat, j: nat) {
    && GoneTwice(w, key, r, spacing, i, j) && w.observations[i].sight == Gone
    && OfVM(w.observations[i].phase) && OfVM(w.observations[j].phase)
  }

  predicate FirewallGoneTwice(w: World, key: string, r: Removal, spacing: nat, i: nat, j: nat) {
    GoneTwice(w, key, r, spacing, i, j) && w.observations[i].sight == Gone
  }

  predicate AddressGoneTwice(w: World, key: string, r: Removal, spacing: nat, i: nat, j: nat) {
    && GoneTwice(w, key, r, spacing, i, j)
    && w.observations[i].target == w.observations[j].target == AddressTarget(r.floatingIPAddress)
  }

  /** The evidence that the phase of a stored removal receipt rests on. A removed VM was gone twice, so
      was a removed firewall; a removed address, also that of a rolled-back VM, was gone at the later
      read and gone or unassigned at the earlier one. */
  ghost predicate Evidenced(w: World, key: string, r: Removal, spacing: nat) {
    && (r.absenceAt.At? ==> exists i :: FirstSeen(w, key, r, i))
    && (r.kind == VMRemoval && Rank(r.phase) >= Rank(RollbackAfterVM) ==>
          exists i: nat, j: nat :: VMGoneTwice(w, key, r, spacing, i, j))
    && (r.kind == FirewallRemoval && r.phase == Absent ==>
          exists i: nat, j: nat :: FirewallGoneTwice(w, key, r, spacing, i, j))
    && (HasAddress(r) && r.phase == Absent ==> exists i: nat, j: nat :: AddressGoneTwice(w, key, r, spacing, i, j))
  }

  /** The receipt is settled only with its address. */
  predicate HasAddress(r: Removal) { r.kind == FloatingIPRemoval || (r.kind == VMRemoval && r.purpose == Rollback) }

  ghost predicate Supported(w: World, key: string, spacing: nat) {
    key in w.stored.removals ==> Evidenced(w, key, w.stored.removals[key], spacing)
  }

  predicate SpacedEvent(e: Event, spacing: nat) {
    e.Write? && e.op.FinishAbsence? ==> e.op.spacing >= spacing
  }

  /** A read belongs to the controller that made it until that controller acts on it, so no two
      observations record the same read. */
  ghost predicate ReadsAreOwn(w: World) {
    && (forall who :: who in w.latest ==> w.latest[who] < |w.readings|)
    && (forall who, other :: who in w.latest && other in w.latest && who != other ==> w.latest[who] != w.latest[other])
    && (forall who, i :: who in w.latest && 0 <= i < |w.observations| ==> w.observations[i].read != w.latest[who])
    && (forall k :: 0 <= k < |w.readings| ==> w.readings[k].after <= |w.observations|)
    && (forall i :: 0 <= i < |w.observations| ==> w.observations[i].read < |w.readings|)
  }

  lemma LookKeepsReadsOwn(w: World, who: nat, target: Target, sight: Sight)
    requires ReadsAreOwn(w)
    ensures ReadsAreOwn(Step(w, Look(who, target, sight)))
  {
  }

  lemma WriteKeepsReadsOwn(w: World, who: nat, op: Op, fault: Fault)
    requires ReadsAreOwn(w)
    ensures ReadsAreOwn(Step(w, Write(who, op, fault)))
  {
    if Possible(w, Write(who, op, fault)) {
      var w' := WriteStep(w, who, op, fault);
      assert |w'.observations| >= |w.observations| && w'.observations[..|w.observations|] == w.observations;
      forall i | |w.observations| <= i < |w'.observations|
          ensures w'.observations[i].read == LatestRead(w, who) && who in w.latest {
        assert RecordsRead(op);
      }
    }
  }

  lemma StepKeepsReadsOwn(w: World, e: Event)
    requires ReadsAreOwn(w)
    ensures ReadsAreOwn(Step(w, e))
  {
    match e
    case Restart(_, _) =>
    case Look(who, target, sight) => LookKeepsReadsOwn(w, who, target, sight);
    case Write(who, op, fault) => WriteKeepsReadsOwn(w, who, op, fault);
    case Send(_, _) =>
  }

  /** The target identity of a receipt and of the evidence it still relies on is kept. */
  predicate SameIdentity(r: Removal, r': Removal, o: Observation) {
    r'.kind == r.kind && r'.uuid == r.uuid
        && (r'.floatingIPAddress == r.floatingIPAddress || (r.kind == VMRemoval && OfVM(o.phase)))
  }

  lemma EntryStays(w: World, who: nat, op: Op, fault: Fault, key: string)
    requires who in w.controllers && key in w.stored.removals && key in WriteStep(w, who, op, fault).stored.removals
    ensures Generation(WriteStep(w, who, op, fault), RemovalEntry(key)) == Generation(w, RemovalEntry(key))
  {
    WriteGenerations(w, who, op, fault, RemovalEntry(key));
    WriteStores(w, who, op, fault);
  }

  lemma EvidenceCarries(w: World, who: nat, op: Op, fault: Fault, key: string, r: Removal, r': Removal, i: nat)
    requires who in w.controllers && key in w.stored.removals && key in WriteStep(w, who, op, fault).stored.removals
    requires About(w, key, r, i) && SameIdentity(r, r', w.observations[i])
    ensures var w' := WriteStep(w, who, op, fault);
            About(w', key, r', i) && w'.observations[i] == w.observations[i]
  {
    EntryStays(w, who, op, fault, key);
  }

  lemma PairCarries(w: World, who: nat, op: Op, fault: Fault, key: string, r: Removal, r': Removal, spacing: nat,
      i: nat, j: nat)
    requires who in w.controllers && key in w.stored.removals && key in WriteStep(w, who, op, fault).stored.removals
    requires SeenTwice(w, key, r, spacing, i, j)
    requires SameIdentity(r, r', w.observations[i]) && SameIdentity(r, r', w.observations[j])
    ensures var w' := WriteStep(w, who, op, fault);
            SeenTwice(w', key, r', spacing, i, j) && w'.observations[i] == w.observations[i]
                && w'.observations[j] == w.observations[j]
  {
    EvidenceCarries(w, who, op, fault, key, r, r', i);
    EvidenceCarries(w, who, op, fault, key, r, r', j);
  }

  /** How a transition that records no sighting may change one removal receipt. */
  predicate Untouched(r: Removal, r': Removal) {
    && r'.kind == r.kind && r'.uuid == r.uuid && r'.purpose == r.purpose
    && (r'.absenceAt.At? || r'.phase == Absent ==> r'.floatingIPAddress == r.floatingIPAddress)
    && (r'.absenceAt.At? ==> r'.absenceAt == r.absenceAt && (OfVM(r'.phase) <==> OfVM(r.phase))
                             && (AwaitsUnassign(r'.phase) || !AwaitsUnassign(r.phase)))
    && (r'.phase == Absent ==> r.phase == Absent)
    && (Rank(r'.phase) >= Rank(RollbackAfterVM) && r.kind == VMRemoval ==> Rank(r.phase) >= Rank(RollbackAfterVM))
  }

  lemma EditChange(op: Op, r: Removal)
    requires EditsReceipt(op) && ValidRemoval(r) && EditReceipt(op, r).Ok?
    ensures Untouched(r, EditReceipt(op, r).value) || op.FirstAbsence? || op.FinishAbsence?
  {
  }

  lemma RemovalChange(op: Op, s: Status, d: Status, key: string)
    requires ValidLedger(s) && Perform(op, s) == Ok(d) && key in d.removals
    ensures if key !in s.removals
            then d.removals[key].absenceAt.NoStamp? && d.removals[key].phase != Absent
                 && (d.removals[key].kind == VMRemoval ==> Rank(d.removals[key].phase) < Rank(RollbackAfterVM))
            else Untouched(s.removals[key], d.removals[key]) || (op.FirstAbsence? && op.key == key)
                 || (op.FinishAbsence? && op.key == key)
  {
    RemovalSource(op, s, d, key);
    if key !in s.removals {
      FreshIsUnseen(d.removals[key]);
    } else if d.removals[key] == s.removals[key] {
      SameIsUntouched(d.removals[key]);
    } else {
      EditChange(op, s.removals[key]);
    }
  }

  lemma FreshIsUnseen(r: Removal)
    requires IsFresh(r)
    ensures r.absenceAt.NoStamp? && r.phase != Absent && (r.kind == VMRemoval ==> Rank(r.phase) < Rank(RollbackAfterVM))
  {
  }

  lemma SameIsUntouched(r: Removal)
    ensures Untouched(r, r)
  {
  }

  lemma UntouchedKeepsVMEvidence(w: World, who: nat, op: Op, fault: Fault, key: string, r: Removal, r': Removal,
      spacing: nat)
    requires who in w.controllers && key in w.stored.removals && key in WriteStep(w, who, op, fault).stored.removals
    requires r.kind == r'.kind == VMRemoval && r.uuid == r'.uuid
    requires exists i: nat, j: nat :: VMGoneTwice(w, key, r, spacing, i, j)
    ensures exists i: nat, j: nat :: VMGoneTwice(WriteStep(w, who, op, fault), key, r', spacing, i, j)
  {
    var i: nat, j: nat :| VMGoneTwice(w, key, r, spacing, i, j);
    PairCarries(w, who, op, fault, key, r, r', spacing, i, j);
    assert VMGoneTwice(WriteStep(w, who, op, fault), key, r', spacing, i, j);
  }

  lemma UntouchedKeepsSupport(w: World, who: nat, op: Op, fault: Fault, key: string, spacing: nat)
    requires who in w.controllers && Supported(w, key, spacing)
    requires var w' := WriteStep(w, who, op, fault);
             key in w.stored.removals && key in w'.stored.removals
                 && Untouched(w.stored.removals[key], w'.stored.removals[key])
    ensures Supported(WriteStep(w, who, op, fault), key, spacing)
  {
    var w' := WriteStep(w, who, op, fault);
    var r, r' := w.stored.removals[key], w'.stored.removals[key];
    if r'.absenceAt.At? {
      var i :| FirstSeen(w, key, r, i);
      EvidenceCarries(w, who, op, fault, key, r, r', i);
      assert FirstSeen(w', key, r', i);
    }
    if r'.phase == Absent && r'.kind == FirewallRemoval {
      var i: nat, j: nat :| FirewallGoneTwice(w, key, r, spacing, i, j);
      PairCarries(w, who, op, fault, key, r, r', spacing, i, j);
      assert FirewallGoneTwice(w', key, r', spacing, i, j);
    }
    if r'.phase == Absent && HasAddress(r') {
      var i: nat, j: nat :| AddressGoneTwice(w, key, r, spacing, i, j);
      PairCarries(w, who, op, fault, key, r, r', spacing, i, j);
      assert AddressGoneTwice(w', key, r', spacing, i, j);
    }
    if r'.kind == VMRemoval && Rank(r'.phase) >= Rank(RollbackAfterVM) {
      UntouchedKeepsVMEvidence(w, who, op, fault, key, r, r', spacing);
    }
  }

  /** A first sighting is recorded in the receipt and changes nothing else of it. */
  lemma FirstAbsenceReceipt(op: Op, r: Removal, r': Removal)
    requires op.FirstAbsence? && ValidRemoval(r) && EditReceipt(op, r) == Ok(r')
    ensures r' == r.(absenceAt := At(op.now)) && r'.phase != Absent && op.seen.phase == r.phase
            && op.seen.uuid == r.uuid
    ensures KindAllowsPhase(r.kind, op.seen.phase)
            && TargetOf(op.seen) == TargetOf(r) == TargetOf(r'.(phase := op.seen.phase))
    ensures op.sight == Gone || (op.sight == Unassigned && AwaitsUnassign(r.phase))
  {
  }

  lemma FirstAbsenceKeepsSupport(w: World, who: nat, op: Op, fault: Fault, key: string, spacing: nat)
    requires who in w.controllers && Supported(w, key, spacing) && ValidLedger(w.stored)
    requires ReadsAreOwn(w) && MayAttempt(w, who, op)
    requires op.FirstAbsence? && op.key == key && SwapOf(w, who, op, fault).committed
    ensures Supported(WriteStep(w, who, op, fault), key, spacing)
  {
    var w' := WriteStep(w, who, op, fault);
    WriteStores(w, who, op, fault);
    WriteGenerations(w, who, op, fault, RemovalEntry(key));
    var r, r' := w.stored.removals[key], w'.stored.removals[key];
    FirstAbsenceReceipt(op, r, r');
    assert FirstSeen(w', key, r', |w.observations|);
    if r'.kind == VMRemoval && Rank(r'.phase) >= Rank(RollbackAfterVM) {
      UntouchedKeepsVMEvidence(w, who, op, fault, key, r, r', spacing);
    }
  }

  /** A finished absence is of the same target, clears the first sighting and settles the phase. */
  lemma FinishAbsenceReceipt(op: Op, r: Removal, r': Removal)
    requires op.FinishAbsence? && ValidRemoval(r) && EditReceipt(op, r) == Ok(r')
    ensures r.absenceAt.At? && r'.absenceAt.NoStamp? && r'.kind == r.kind && r'.uuid == r.uuid
            && r'.floatingIPAddress == r.floatingIPAddress
    ensures op.seen.uuid == r.uuid && op.seen.phase == r.phase && r.absenceAt.time + op.spacing <= op.now
    ensures op.seen.absenceAt == r.absenceAt
    ensures KindAllowsPhase(r.kind, op.seen.phase)
            && TargetOf(op.seen) == TargetOf(r) == TargetOf(r'.(phase := op.seen.phase))
    ensures r'.phase == Absent ==> op.sight == Gone
    ensures r'.kind == VMRemoval && !OfVM(r.phase) ==> Rank(r.phase) >= Rank(RollbackAfterVM)
    ensures r'.kind == VMRemoval && OfVM(r.phase) ==> op.sight == Gone
    ensures r.kind == FirewallRemoval ==> !AwaitsUnassign(r.phase)
    ensures r'.purpose == r.purpose && (r'.phase == Absent && HasAddress(r) ==> !OfVM(r.phase))
  {
  }

  /** The second sighting completes the pair with the first one on record. */
  lemma FinishAbsenceEvidence(w: World, who: nat, op: Op, fault: Fault, spacing: nat, i: nat)
    requires who in w.controllers && op.FinishAbsence? && op.spacing >= spacing && ValidLedger(w.stored)
    requires ReadsAreOwn(w) && MayAttempt(w, who, op)
    requires SwapOf(w, who, op, fault).committed
    requires op.key in w.stored.removals && FirstSeen(w, op.key, w.stored.removals[op.key], i)
    ensures var w' := WriteStep(w, who, op, fault);
            && op.key in w'.stored.removals
            && SeenTwice(w', op.key, w'.stored.removals[op.key], spacing, i, |w.observations|)
            && w'.observations[i] == w.observations[i] && w'.observations[|w.observations|].sight == op.sight
            && w'.observations[|w.observations|].phase == w.stored.removals[op.key].phase
  {
    WriteStores(w, who, op, fault);
    EntryStays(w, who, op, fault, op.key);
    var r, r' := w.stored.removals[op.key], WriteStep(w, who, op, fault).stored.removals[op.key];
    FinishAbsenceReceipt(op, r, r');
    EvidenceCarries(w, who, op, fault, op.key, r, r', i);
  }

  /** A pair that does not concern a VM is of the address, unless it is a firewall's. */
  lemma PairIsOfAddress(w: World, key: string, r: Removal, spacing: nat, i: nat, j: nat)
    requires SeenTwice(w, key, r, spacing, i, j) && HasAddress(r) && !OfVM(w.observations[i].phase)
    ensures w.observations[i].target == w.observations[j].target == AddressTarget(r.floatingIPAddress)
  {
  }

  lemma FinishAbsenceKeepsSupport(w: World, who: nat, op: Op, fault: Fault, key: string, spacing: nat)
    requires who in w.controllers && Supported(w, key, spacing) && ValidLedger(w.stored)
    requires ReadsAreOwn(w) && MayAttempt(w, who, op)
    requires op.FinishAbsence? && op.key == key && op.spacing >= spacing && SwapOf(w, who, op, fault).committed
    ensures Supported(WriteStep(w, who, op, fault), key, spacing)
  {
    var w' := WriteStep(w, who, op, fault);
    WriteStores(w, who, op, fault);
    var r, r' := w.stored.removals[key], w'.stored.removals[key];
    FinishAbsenceReceipt(op, r, r');
    var i :| FirstSeen(w, key, r, i);
    FinishAbsenceEvidence(w, who, op, fault, spacing, i);
    if r'.kind == VMRemoval && !OfVM(r.phase) {
      UntouchedKeepsVMEvidence(w, who, op, fault, key, r, r', spacing);
    }
    PairSupports(w', key, r', spacing, i, |w.observations|);
  }

  /** A pair of sightings supports the phase that it settles. */
  lemma PairSupports(w: World, key: string, r: Removal, spacing: nat, i: nat, j: nat)
    requires SeenTwice(w, key, r, spacing, i, j) && r.absenceAt.NoStamp?
    requires r.phase == Absent || OfVM(w.observations[j].phase) ==> w.observations[j].sight == Gone
    requires r.phase == Absent && HasAddress(r) ==> !OfVM(w.observations[j].phase)
    requires r.kind == VMRemoval && !OfVM(w.observations[j].phase) ==>
               exists x: nat, y: nat :: VMGoneTwice(w, key, r, spacing, x, y)
    ensures Evidenced(w, key, r, spacing)
  {
    if r.kind == VMRemoval && OfVM(w.observations[j].phase) {
      assert VMGoneTwice(w, key, r, spacing, i, j);
    }
    if r.kind == FirewallRemoval && r.phase == Absent {
      assert FirewallGoneTwice(w, key, r, spacing, i, j);
    }
    if HasAddress(r) && r.phase == Absent {
      PairIsOfAddress(w, key, r, spacing, i, j);
      assert AddressGoneTwice(w, key, r, spacing, i, j);
    }
  }

  lemma StepKeepsSupport(w: World, e: Event, key: string, spacing: nat)
    requires ValidLedger(w.stored) && Supported(w, key, spacing) && SpacedEvent(e, spacing) && ReadsAreOwn(w)
    ensures Supported(Step(w, e), key, spacing)
  {
    var w' := Step(w, e);
    if !e.Write? || !Possible(w, e) {
      if key in w.stored.removals { SameEvidence(w, w', key, spacing); }
    } else if key in w'.stored.removals {
      WriteStores(w, e.who, e.op, e.fault);
      if SwapOf(w, e.who, e.op, e.fault).committed {
        RemovalChange(e.op, w.stored, w'.stored, key);
        if key in w.stored.removals {
          if Untouched(w.stored.removals[key], w'.stored.removals[key]) {
            UntouchedKeepsSupport(w, e.who, e.op, e.fault, key, spacing);
          } else if e.op.FirstAbsence? {
            FirstAbsenceKeepsSupport(w, e.who, e.op, e.fault, key, spacing);
          } else {
            FinishAbsenceKeepsSupport(w, e.who, e.op, e.fault, key, spacing);
          }
        }
      } else {
        UntouchedKeepsSupport(w, e.who, e.op, e.fault, key, spacing);
      }
    }
  }

  lemma SameEvidence(w: World, w': World, key: string, spacing: nat)
    requires w'.stored == w.stored && w'.observations == w.observations && w'.generations == w.generations
    requires w.readings <= w'.readings
    requires key in w.stored.removals && Supported(w, key, spacing)
    ensures Supported(w', key, spacing)
  {
    var r := w.stored.removals[key];
    if r.absenceAt.At? { var i :| FirstSeen(w, key, r, i); assert FirstSeen(w', key, r, i); }
    if r.kind == FirewallRemoval && r.phase == Absent {
      var i: nat, j: nat :| FirewallGoneTwice(w, key, r, spacing, i, j);
      SamePair(w, w', key, r, spacing, i, j);
      assert FirewallGoneTwice(w', key, r, spacing, i, j);
    }
    if HasAddress(r) && r.phase == Absent {
      var i: nat, j: nat :| AddressGoneTwice(w, key, r, spacing, i, j);
      SamePair(w, w', key, r, spacing, i, j);
      assert AddressGoneTwice(w', key, r, spacing, i, j);
    }
    if r.kind == VMRemoval && Rank(r.phase) >= Rank(RollbackAfterVM) {
      var i: nat, j: nat :| VMGoneTwice(w, key, r, spacing, i, j);
      SamePair(w, w', key, r, spacing, i, j);
      assert VMGoneTwice(w', key, r, spacing, i, j);
    }
  }

  lemma SamePair(w: World, w': World, key: string, r: Removal, spacing: nat, i: nat, j: nat)
    requires w'.observations == w.observations && w'.generations == w.generations && w.readings <= w'.readings
    requires SeenTwice(w, key, r, spacing, i, j)
    ensures SeenTwice(w', key, r, spacing, i, j)
  {
  }

  /** In every run a removal is recorded absent only on two different inventory reads of that very
      target, both made durable and spaced: for a VM or a firewall both showed it gone, for an address
      the earlier one showed it gone or unassigned and the later one gone. */
  lemma {:induction false} AbsenceIsEvidenced(w: World, events: seq<Event>, key: string, spacing: nat)
    requires Shaped(w.stored) && Supported(w, key, spacing) && ReadsAreOwn(w)
    requires forall i :: 0 <= i < |events| ==> SpacedEvent(events[i], spacing)
    ensures Supported(Run(w, events), key, spacing) && ReadsAreOwn(Run(w, events))
    decreases |events|
  {
    if events != [] {
      StepKeepsSupport(w, events[0], key, spacing);
      StepKeepsShape(w, events[0]);
      StepKeepsReadsOwn(w, events[0]);
      AbsenceIsEvidenced(Step(w, events[0]), events[1..], key, spacing);
    }
  }
}

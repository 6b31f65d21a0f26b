/** The durable mutation ledger kept in the cluster status: one receipt per cloud create,
    assignment or rename, one receipt per removal, and every transition a controller may ask
    the status store to persist. A transition is a function from the status the controller
    holds in memory to the status it wants stored, or `Fail` when the transition is refused,
    be it by the checks that precede the swap or by the mutator itself. */
module Ledger {
  import opened Outcomes
  import opened Text
  import opened AddressPool

  /** A time field of a receipt: empty, unreadable, or a UTC instant. */
  datatype Stamp = NoStamp | Unreadable | At(time: int)

  // ----- create receipts -----

  datatype CreateKind = VirtualMachine | Firewall | FirewallAssignment | FloatingIPUpdate

  datatype CreatePhase = Intent | Issued | Rejected | Materialized | Adopted | UnknownPhase

  datatype CreateAttempt = CreateAttempt(
    kind: CreateKind, name: string, intentHash: string, phase: CreatePhase,
    issueID: string, issuedAt: Stamp, uuid: string)

  predicate ValidIssue(issueID: string, issuedAt: Stamp) {
    |issueID| == 32 && IsHex(issueID) && issuedAt.At?
  }

  predicate NoIssue(issueID: string, issuedAt: Stamp) {
    issueID == "" && issuedAt.NoStamp?
  }

  predicate ValidCreateAttempt(a: CreateAttempt, kind: CreateKind, name: string, intentHash: string) {
    && a.kind == kind && a.name == name && a.intentHash == intentHash
    && match a.phase
       case Intent => NoIssue(a.issueID, a.issuedAt) && a.uuid == ""
       case Issued => ValidIssue(a.issueID, a.issuedAt) && a.uuid == ""
       case Rejected => ValidIssue(a.issueID, a.issuedAt) && a.uuid == ""
       case Materialized => ValidIssue(a.issueID, a.issuedAt) && IsUUID(a.uuid)
       case Adopted => NoIssue(a.issueID, a.issuedAt) && IsUUID(a.uuid)
       case UnknownPhase => false
  }

  /** The firewall half of a "firewall/VM" assignment name, lower-cased. */
  function AssignmentFirewall(name: string): Outcome<string> {
    if |name| == 73 && name[36] == '/' && IsUUID(name[..36]) && IsUUID(name[37..])
    then Ok(Lower(name[..36])) else Fail
  }

  // ----- removal receipts -----

  datatype RemovalKind = VMRemoval | FloatingIPRemoval | FirewallRemoval

  datatype Purpose = Destroy | Rollback

  datatype RemovalPhase =
    | RollbackDiscovery
    | VMIntent | VMIssued
    | RollbackAfterVM
    | RollbackUnassignIntent | RollbackUnassignIssued
    | RollbackDeleteIntent | RollbackDeleteIssued
    | UnassignIntent | UnassignIssued
    | DeleteIntent | DeleteIssued
    | FirewallIntent | FirewallIssued
    | Absent

  /** The destructive calls a removal receipt can authorize. */
  datatype Action = DeleteVM | RollbackUnassign | RollbackDelete | Unassign | Delete | DeleteFirewall {
    function IntentPhase(): RemovalPhase {
      match this
      case DeleteVM => VMIntent
      case RollbackUnassign => RollbackUnassignIntent
      case RollbackDelete => RollbackDeleteIntent
      case Unassign => UnassignIntent
      case Delete => DeleteIntent
      case DeleteFirewall => FirewallIntent
    }

    function IssuedPhase(): RemovalPhase {
      match this
      case DeleteVM => VMIssued
      case RollbackUnassign => RollbackUnassignIssued
      case RollbackDelete => RollbackDeleteIssued
      case Unassign => UnassignIssued
      case Delete => DeleteIssued
      case DeleteFirewall => FirewallIssued
    }
  }

  datatype Removal = Removal(
    kind: RemovalKind, name: string, uuid: string, firewallUUID: string, relatedUUID: string,
    purpose: Purpose, phase: RemovalPhase, issueID: string, issuedAt: Stamp, absenceAt: Stamp,
    floatingIPName: string, floatingIPAddress: string)

  predicate IsIssuedPhase(p: RemovalPhase) {
    p.VMIssued? || p.RollbackUnassignIssued? || p.RollbackDeleteIssued? || p.UnassignIssued? || p.DeleteIssued?
        || p.FirewallIssued?
  }

  predicate IsRollbackPhase(p: RemovalPhase) {
    || p.RollbackDiscovery? || p.RollbackAfterVM? || p.RollbackUnassignIntent? || p.RollbackUnassignIssued?
    || p.RollbackDeleteIntent? || p.RollbackDeleteIssued?
  }

  predicate KindAllowsPhase(kind: RemovalKind, p: RemovalPhase) {
    match kind
    case VMRemoval => IsRollbackPhase(p) || p.VMIntent? || p.VMIssued? || p.Absent?
    case FloatingIPRemoval => p.UnassignIntent? || p.UnassignIssued? || p.DeleteIntent? || p.DeleteIssued? || p.Absent?
    case FirewallRemoval => p.FirewallIntent? || p.FirewallIssued? || p.Absent?
  }

  /** Phases in which a first absence observation may be on record. */
  predicate MayHoldAbsence(p: RemovalPhase) {
    !p.Absent? && !p.RollbackDiscovery? && !p.RollbackUnassignIntent? && !p.RollbackDeleteIntent?
  }

  /** The identity a removal receipt must carry for its kind, purpose and phase. */
  predicate ValidTarget(r: Removal) {
    match r.kind
    case VMRemoval =>
      && IsUUID(r.uuid) && (r.firewallUUID == "" || IsUUID(r.firewallUUID))
      && (if r.purpose == Rollback then r.floatingIPName != "" else r.floatingIPName == "" && r.floatingIPAddress == "")
      && (r.phase.RollbackDiscovery? ==> r.floatingIPAddress == "")
      && (HandlesAddress(r.phase) ==> r.floatingIPAddress != "")
    case FloatingIPRemoval =>
      && r.purpose == Destroy && r.name != "" && r.uuid == "" && r.firewallUUID == ""
         && IsPublicIPv4(r.floatingIPAddress)
      && (r.relatedUUID == "" || IsUUID(r.relatedUUID))
    case FirewallRemoval =>
      && r.purpose == Destroy && r.name != "" && IsUUID(r.uuid) && r.firewallUUID == "" && r.relatedUUID == ""
      && r.floatingIPAddress == "" && r.floatingIPName == ""
  }

  /** Rollback phases that act on an identified address. */
  predicate HandlesAddress(p: RemovalPhase) {
    p.RollbackUnassignIntent? || p.RollbackUnassignIssued? || p.RollbackDeleteIntent? || p.RollbackDeleteIssued?
  }

  predicate ValidRemovalIssue(issueID: string, issuedAt: Stamp) {
    IsIssueID(issueID) && issuedAt.At?
  }

  /** What the two receipt validators demand beyond the deterministic names of the cluster. */
  predicate ValidRemoval(r: Removal) {
    && ValidTarget(r)
    && KindAllowsPhase(r.kind, r.phase)
    && (IsRollbackPhase(r.phase) ==> r.purpose == Rollback)
    && (if IsIssuedPhase(r.phase) then ValidRemovalIssue(r.issueID, r.issuedAt) else NoIssue(r.issueID, r.issuedAt))
    && !r.absenceAt.Unreadable?
    && (r.absenceAt.At? ==> MayHoldAbsence(r.phase))
  }

  function WithPhase(r: Removal, p: RemovalPhase): Removal {
    r.(phase := p, issueID := "", issuedAt := NoStamp, absenceAt := NoStamp)
  }

  /** What a removal receipt is about in its present phase. */
  datatype Target = VMTarget(uuid: string) | AddressTarget(address: string) | FirewallTarget(uuid: string)

  function TargetOf(r: Removal): Target {
    match r.phase
    case VMIntent => VMTarget(r.uuid)
    case VMIssued => VMTarget(r.uuid)
    case FirewallIntent => FirewallTarget(r.uuid)
    case FirewallIssued => FirewallTarget(r.uuid)
    case _ => AddressTarget(r.floatingIPAddress)
  }

  /** What one inventory read of a removal target showed: nothing, an address that is assigned to
      nothing, or the target as it was. */
  datatype Sight = Gone | Unassigned | Remains

  /** The phase a second spaced sighting leads to, if that sighting settles anything. */
  function Settled(r: Removal, sight: Sight): Outcome<RemovalPhase> {
    match sight
    case Gone =>
      (match r.phase
       case VMIntent => Ok(if r.purpose == Rollback then RollbackAfterVM else Absent)
       case VMIssued => Ok(if r.purpose == Rollback then RollbackAfterVM else Absent)
       case RollbackAfterVM => if r.floatingIPAddress == "" then Fail else Ok(Absent)
       case RollbackUnassignIssued => Ok(Absent)
       case RollbackDeleteIssued => Ok(Absent)
       case UnassignIntent => Ok(Absent)
       case UnassignIssued => Ok(Absent)
       case DeleteIntent => Ok(Absent)
       case DeleteIssued => Ok(Absent)
       case FirewallIntent => Ok(Absent)
       case FirewallIssued => Ok(Absent)
       case _ => Fail)
    case Unassigned =>
      (match r.phase
       case UnassignIssued => Ok(DeleteIntent)
       case RollbackUnassignIssued => Ok(RollbackDeleteIntent)
       case _ => Fail)
    case Remains => Fail
  }

  /** VM deletion readback compares UUID and phase; every other readback the full identity. */
  predicate SameTarget(current: Removal, seen: Removal) {
    && current.phase == seen.phase && current.uuid == seen.uuid
    && (!seen.phase.VMIntent? && !seen.phase.VMIssued? ==>
          current.kind == seen.kind && current.name == seen.name &&
          current.floatingIPAddress == seen.floatingIPAddress)
  }

  // ----- the status and its transitions -----

  datatype Status = Status(creates: map<string, CreateAttempt>, removals: map<string, Removal>, other: int)

  const EMPTY: Status := Status(map[], map[], 0)

  /** One expired firewall assignment selected for rollback. */
  datatype Candidate = Candidate(
    assignmentKey: string, vmKey: string, removalKey: string, firewallKey: string,
    assignment: CreateAttempt, vm: CreateAttempt, firewall: CreateAttempt,
    vmName: string, vmUUID: string, firewallUUID: string, floatingIPName: string)

  /** What selecting a candidate establishes about the three receipts it carries. */
  predicate WellChosen(c: Candidate) {
    && ValidCreateAttempt(c.assignment, FirewallAssignment, c.assignment.name, c.assignment.intentHash)
    && c.assignment.phase == Issued
    && AssignmentFirewall(c.assignment.name) == Ok(c.firewallUUID)
    && c.vmUUID == Lower(c.assignment.name[37..])
    && ValidCreateAttempt(c.vm, VirtualMachine, c.vmName, c.vm.intentHash)
    && c.vm.phase == Materialized && EqualFold(c.vm.uuid, c.vmUUID)
    && ValidCreateAttempt(c.firewall, Firewall, c.firewall.name, c.firewall.intentHash)
    && (c.firewall.phase == Materialized || c.firewall.phase == Adopted) && EqualFold(c.firewall.uuid, c.firewallUUID)
    && c.floatingIPName != ""
  }

  /** Every status transition the controller knows. */
  datatype Op =
    | PersistIntent(key: string, kind: CreateKind, name: string, hash: string)
    | PersistIssue(key: string, kind: CreateKind, name: string, hash: string, id: string, now: int)
    | Materialize(key: string, kind: CreateKind, name: string, hash: string, uuid: string)
    | Reject(key: string, kind: CreateKind, name: string, hash: string)
    | ResetIssue(key: string, kind: CreateKind, name: string, hash: string)
    | Adopt(key: string, kind: CreateKind, name: string, hash: string, uuid: string)
    | ClearRejection(key: string, kind: CreateKind, name: string, hash: string)
    | ClearAllCreates
    | EnsureFloatingIPRemoval(key: string, name: string, address: string, assignedTo: string)
    | EnsureFirewallRemoval(key: string, name: string, uuid: string)
    | EnsureVMRemoval(key: string, purpose: Purpose, name: string, uuid: string, firewallUUID: string,
        floatingIPName: string)
    | PersistRollback(candidate: Candidate, now: int, deadline: nat)
    | IssueRemoval(key: string, action: Action, id: string, now: int)
    | ResetRemoval(key: string, action: Action)
    | FirstAbsence(key: string, seen: Removal, sight: Sight, now: int)
    | FinishAbsence(key: string, seen: Removal, sight: Sight, now: int, spacing: nat)
    | ClearAbsence(key: string, seen: Removal)
    | DiscoverAddress(key: string, address: string)
    | ResumeAddress(key: string, address: string, attached: bool)
    | ClearRollback(key: string, seen: Removal, createKey: string, assignmentKey: string, updateKey: string)
    | ClearAllMutations
    | WriteOther(value: int)

  function PutCreate(s: Status, key: string, a: CreateAttempt): Status {
    s.(creates := s.creates[key := a])
  }

  function PutRemoval(s: Status, key: string, r: Removal): Status {
    s.(removals := s.removals[key := r])
  }

  /** The receipt under `key`, when it is present and matches the caller's immutable intent. */
  function Lookup(s: Status, key: string, kind: CreateKind, name: string, hash: string): Outcome<CreateAttempt> {
    if key in s.creates && ValidCreateAttempt(s.creates[key], kind, name, hash) then Ok(s.creates[key]) else Fail
  }

  /** Another receipt that keeps the assignment `name` from being issued: an issued assignment
      to the same firewall, or an issued assignment that cannot be read. */
  predicate BlocksAssignment(other: CreateAttempt, firewall: string) {
    && other.kind == FirewallAssignment && other.phase == Issued
    && (AssignmentFirewall(other.name).Fail? || !ValidIssue(other.issueID, other.issuedAt) || other.uuid != "" ||
        EqualFold(AssignmentFirewall(other.name).value, firewall))
  }

  predicate MayIssue(s: Status, key: string, kind: CreateKind, name: string) {
    kind == FirewallAssignment ==>
      && AssignmentFirewall(name).Ok?
      && forall k :: k in s.creates && k != key ==> !BlocksAssignment(s.creates[k], AssignmentFirewall(name).value)
  }

  function Issue(s: Status, key: string, kind: CreateKind, name: string, hash: string, id: string,
      now: int): Outcome<Status> {
    var a := Lookup(s, key, kind, name, hash);
    if a.Ok? && a.value.phase == Intent && MayIssue(s, key, kind, name)
    then Ok(PutCreate(s, key, a.value.(phase := Issued, issueID := id, issuedAt := At(now))))
    else Fail
  }

  function MaterializeReceipt(s: Status, key: string, kind: CreateKind, name: string, hash: string,
      uuid: string): Outcome<Status> {
    var a := Lookup(s, key, kind, name, hash);
    if !IsUUID(uuid) || a.Fail? then Fail
    else if a.value.phase == Materialized then
      if EqualFold(a.value.uuid, uuid) then Ok(s) else Fail
    else if a.value.phase == Issued || a.value.phase == Rejected then
      Ok(PutCreate(s, key, a.value.(phase := Materialized, uuid := Lower(uuid))))
    else Fail
  }

  function RejectReceipt(s: Status, key: string, kind: CreateKind, name: string, hash: string): Outcome<Status> {
    var a := Lookup(s, key, kind, name, hash);
    if a.Fail? then Fail
    else if a.value.phase == Rejected then Ok(s)
    else if a.value.phase == Issued then Ok(PutCreate(s, key, a.value.(phase := Rejected)))
    else Fail
  }

  function ResetReceipt(s: Status, key: string, kind: CreateKind, name: string, hash: string): Outcome<Status> {
    var a := Lookup(s, key, kind, name, hash);
    if a.Ok? && a.value.phase == Issued
    then Ok(PutCreate(s, key, a.value.(phase := Intent, issueID := "", issuedAt := NoStamp, uuid := "")))
    else Fail
  }

  function AdoptReceipt(s: Status, key: string, kind: CreateKind, name: string, hash: string,
      uuid: string): Outcome<Status> {
    if !IsUUID(uuid) then Fail
    else if key !in s.creates then
      Ok(PutCreate(s, key, CreateAttempt(kind, name, hash, Adopted, "", NoStamp, Lower(uuid))))
    else
      var a := Lookup(s, key, kind, name, hash);
      if a.Fail? then Fail
      else if (a.value.phase == Adopted || a.value.phase == Materialized) && EqualFold(a.value.uuid, uuid) then Ok(s)
      else if a.value.phase == Intent then Ok(PutCreate(s, key, a.value.(phase := Adopted, uuid := Lower(uuid))))
      else Fail
  }

  function ClearRejectedReceipt(s: Status, key: string, kind: CreateKind, name: string, hash: string): Outcome<Status> {
    if key !in s.creates then Ok(s)
    else
      var a := Lookup(s, key, kind, name, hash);
      if a.Ok? && a.value.phase == Rejected then Ok(s.(creates := s.creates - {key})) else Fail
  }

  /** Keep an existing receipt for the same target, refuse one for another target, else insert. */
  function EnsureRemoval(s: Status, key: string, wanted: Removal): Outcome<Status> {
    if key !in s.removals then Ok(PutRemoval(s, key, wanted))
    else
      var r := s.removals[key];
      if ValidRemoval(r) && r.kind == wanted.kind && r.name == wanted.name && r.purpose == wanted.purpose &&
         EqualFold(r.uuid, wanted.uuid) && EqualFold(r.firewallUUID, wanted.firewallUUID) &&
         r.relatedUUID == wanted.relatedUUID && r.floatingIPName == wanted.floatingIPName &&
         (wanted.kind == FloatingIPRemoval ==> r.floatingIPAddress == wanted.floatingIPAddress)
      then Ok(s) else Fail
  }

  function FreshFloatingIPRemoval(name: string, address: string, assignedTo: string): Removal {
    Removal(FloatingIPRemoval, name, "", "", Lower(assignedTo), Destroy,
            if assignedTo != "" then UnassignIntent else DeleteIntent,
            "", NoStamp, NoStamp, name, address)
  }

  function FreshFirewallRemoval(name: string, uuid: string): Removal {
    Removal(FirewallRemoval, name, Lower(uuid), "", "", Destroy, FirewallIntent, "", NoStamp, NoStamp, "", "")
  }

  function FreshVMRemoval(purpose: Purpose, name: string, uuid: string, firewallUUID: string,
      floatingIPName: string): Removal {
    Removal(VMRemoval, name, Lower(uuid), Lower(firewallUUID), "", purpose,
            if purpose == Rollback then RollbackDiscovery else VMIntent,
            "", NoStamp, NoStamp, floatingIPName, "")
  }

  /** The receipts of an expired assignment, exactly as the candidate recorded them. */
  predicate StillExpired(s: Status, c: Candidate, now: int, deadline: nat) {
    && c.assignmentKey in s.creates && s.creates[c.assignmentKey] == c.assignment && c.assignment.phase == Issued
    && c.vmKey in s.creates && s.creates[c.vmKey] == c.vm && c.vm.phase == Materialized
       && EqualFold(c.vm.uuid, c.vmUUID)
    && c.firewallKey in s.creates && s.creates[c.firewallKey] == c.firewall
       && EqualFold(c.firewall.uuid, c.firewallUUID)
    && c.assignment.issuedAt.At? && now >= c.assignment.issuedAt.time + deadline
  }

  function RollBackExpired(s: Status, c: Candidate, now: int, deadline: nat): Outcome<Status> {
    if StillExpired(s, c, now, deadline)
    then EnsureRemoval(s, c.removalKey,
                       Removal(VMRemoval, c.vmName, c.vmUUID, c.firewallUUID, "", Rollback, RollbackDiscovery,
                               "", NoStamp, NoStamp, c.floatingIPName, ""))
    else Fail
  }

  /** Transitions that edit one existing removal receipt in place. */
  predicate EditsReceipt(op: Op) {
    op.IssueRemoval? || op.ResetRemoval? || op.FirstAbsence? || op.FinishAbsence? || op.ClearAbsence?
        || op.DiscoverAddress? || op.ResumeAddress?
  }

  function EditReceipt(op: Op, r: Removal): Outcome<Removal>
    requires EditsReceipt(op)
  {
    match op
    case IssueRemoval(_, action, id, now) =>
      if ValidRemoval(r) && r.phase == action.IntentPhase()
      then Ok(r.(phase := action.IssuedPhase(), issueID := id, issuedAt := At(now))) else Fail
    case ResetRemoval(_, action) =>
      if r.phase == action.IssuedPhase() then Ok(WithPhase(r, action.IntentPhase())) else Fail
    case FirstAbsence(_, seen, sight, now) =>
      if SameTarget(r, seen) && r.absenceAt.NoStamp? && Settled(r, sight).Ok?
      then Ok(r.(absenceAt := At(now))) else Fail
    case FinishAbsence(_, seen, sight, now, spacing) =>
      if SameTarget(r, seen) && r.absenceAt == seen.absenceAt && seen.absenceAt.At? &&
         now >= seen.absenceAt.time + spacing && Settled(r, sight).Ok?
      then Ok(WithPhase(r, Settled(r, sight).value)) else Fail
    case ClearAbsence(_, seen) =>
      if SameTarget(r, seen) then Ok(r.(absenceAt := NoStamp)) else Fail
    case DiscoverAddress(_, address) =>
      if r.phase == RollbackDiscovery && IsPublicIPv4(address)
          then Ok(WithPhase(r, VMIntent).(floatingIPAddress := address)) else Fail
    case ResumeAddress(_, address, attached) =>
      if r.phase == RollbackAfterVM && address != ""
      then Ok(WithPhase(r, if attached then RollbackUnassignIntent else RollbackDeleteIntent)
              .(floatingIPAddress := if r.floatingIPAddress == "" then address else r.floatingIPAddress))
      else Fail
  }

  function EditRemoval(s: Status, op: Op): Outcome<Status>
    requires EditsReceipt(op)
  {
    if op.ClearAbsence? && op.seen.absenceAt.NoStamp? then Ok(s)
    else if op.key in s.removals && EditReceipt(op, s.removals[op.key]).Ok?
    then Ok(PutRemoval(s, op.key, EditReceipt(op, s.removals[op.key]).value))
    else Fail
  }

  predicate RollbackMatches(s: Status, seen: Removal, createKey: string, assignmentKey: string, updateKey: string) {
    && (createKey in s.creates ==>
          s.creates[createKey].kind == VirtualMachine && s.creates[createKey].name == seen.name &&
          EqualFold(s.creates[createKey].uuid, seen.uuid))
    && (assignmentKey in s.creates ==>
          s.creates[assignmentKey].kind == FirewallAssignment &&
          EqualFold(s.creates[assignmentKey].name, seen.firewallUUID + "/" + seen.uuid))
    && (updateKey in s.creates ==>
          s.creates[updateKey].kind == FloatingIPUpdate &&
          HasSuffix(s.creates[updateKey].name, "/" + seen.floatingIPName))
  }

  predicate HasSuffix(s: string, suffix: string) {
    |suffix| <= |s| && s[|s| - |suffix|..] == suffix
  }

  function ClearRollbackReceipts(
    s: Status, key: string, seen: Removal, createKey: string, assignmentKey: string, updateKey: string): Outcome<Status>
  {
    if key in s.removals && s.removals[key] == seen && seen.purpose == Rollback && seen.phase == Absent &&
       RollbackMatches(s, seen, createKey, assignmentKey, updateKey)
    then Ok(s.(creates := s.creates - {createKey, assignmentKey, updateKey}, removals := s.removals - {key}))
    else Fail
  }

  function Perform(op: Op, s: Status): Outcome<Status> {
    match op
    case PersistIntent(key, kind, name, hash) =>
      if key in s.creates then Fail
      else Ok(PutCreate(s, key, CreateAttempt(kind, name, hash, Intent, "", NoStamp, "")))
    case PersistIssue(key, kind, name, hash, id, now) => Issue(s, key, kind, name, hash, id, now)
    case Materialize(key, kind, name, hash, uuid) => MaterializeReceipt(s, key, kind, name, hash, uuid)
    case Reject(key, kind, name, hash) => RejectReceipt(s, key, kind, name, hash)
    case ResetIssue(key, kind, name, hash) => ResetReceipt(s, key, kind, name, hash)
    case Adopt(key, kind, name, hash, uuid) => AdoptReceipt(s, key, kind, name, hash, uuid)
    case ClearRejection(key, kind, name, hash) => ClearRejectedReceipt(s, key, kind, name, hash)
    case ClearAllCreates => Ok(s.(creates := map[]))
    case EnsureFloatingIPRemoval(key, name, address, assignedTo) =>
      if name != "" && IsPublicIPv4(address) && (assignedTo == "" || IsUUID(assignedTo))
      then EnsureRemoval(s, key, FreshFloatingIPRemoval(name, address, assignedTo)) else Fail
    case EnsureFirewallRemoval(key, name, uuid) =>
      if name != "" && IsUUID(uuid) then EnsureRemoval(s, key, FreshFirewallRemoval(name, uuid)) else Fail
    case EnsureVMRemoval(key, purpose, name, uuid, firewallUUID, floatingIPName) =>
      if IsUUID(uuid) && (firewallUUID == "" || IsUUID(firewallUUID)) && (purpose == Rollback <==> floatingIPName != "")
      then EnsureRemoval(s, key, FreshVMRemoval(purpose, name, uuid, firewallUUID, floatingIPName)) else Fail
    case PersistRollback(candidate, now, deadline) => RollBackExpired(s, candidate, now, deadline)
    case ClearRollback(key, seen, createKey, assignmentKey, updateKey) =>
      ClearRollbackReceipts(s, key, seen, createKey, assignmentKey, updateKey)
    case ClearAllMutations => Ok(s.(creates := map[], removals := map[]))
    case WriteOther(value) => Ok(s.(other := value))
    case _ => EditRemoval(s, op)
  }
}

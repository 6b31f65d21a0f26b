/** What each status transition does to the authority recorded in the ledger: which receipts
    can still authorize a call, which already account for one, and which transitions open,
    close or retire a receipt. Every lemma is about all transitions at once. */
module LedgerRules {
  import opened Outcomes
  import opened Ledger

  /** One kind of cloud call that the ledger guards. */
  datatype Slot = CreateSlot(key: string) | RemovalSlot(key: string, action: Action)

  /** The ledger entry a slot lives in. */
  datatype Entry = CreateEntry(key: string) | RemovalEntry(key: string)

  function EntryOf(slot: Slot): Entry {
    match slot
    case CreateSlot(key) => CreateEntry(key)
    case RemovalSlot(key, _) => RemovalEntry(key)
  }

  /** Removal phases in the order a receipt moves through them; intents even, issued odd. */
  function Rank(p: RemovalPhase): nat {
    match p
    case RollbackDiscovery => 0
    case VMIntent => 2
    case VMIssued => 3
    case RollbackAfterVM => 4
    case RollbackUnassignIntent => 6
    case RollbackUnassignIssued => 7
    case RollbackDeleteIntent => 8
    case RollbackDeleteIssued => 9
    case UnassignIntent => 2
    case UnassignIssued => 3
    case DeleteIntent => 4
    case DeleteIssued => 5
    case FirewallIntent => 2
    case FirewallIssued => 3
    case Absent => 10
  }

  /** The issue identity that is open in the slot, if any. */
  function LiveIssue(s: Status, slot: Slot): Outcome<string> {
    match slot
    case CreateSlot(key) =>
      if key in s.creates && s.creates[key].phase == Issued then Ok(s.creates[key].issueID) else Fail
    case RemovalSlot(key, action) =>
      if key in s.removals && s.removals[key].phase == action.IssuedPhase() then Ok(s.removals[key].issueID) else Fail
  }

  /** The ledger still answers for a call sent under issue `id`: no further call can be issued. */
  predicate Accounts(s: Status, slot: Slot, id: string) {
    match slot
    case CreateSlot(key) =>
      key in s.creates && (s.creates[key].phase == Issued || s.creates[key].phase == Materialized)
          && s.creates[key].issueID == id
    case RemovalSlot(key, action) =>
      && key in s.removals
      && ((s.removals[key].phase == action.IssuedPhase() && s.removals[key].issueID == id)
          || Rank(s.removals[key].phase) > Rank(action.IssuedPhase()))
  }

  /** A transition that opens `slot` under issue `id`. */
  predicate Opens(op: Op, slot: Slot, id: string) {
    || (op.PersistIssue? && slot == CreateSlot(op.key) && op.id == id)
    || (op.IssueRemoval? && slot == RemovalSlot(op.key, op.action) && op.id == id)
  }

  /** A transition that hands an issued slot back for another attempt. */
  predicate Closes(op: Op, slot: Slot) {
    || ((op.ResetIssue? || op.Reject?) && slot == CreateSlot(op.key))
    || (op.ResetRemoval? && slot == RemovalSlot(op.key, op.action))
  }

  /** The entries a transition drops together with whatever they recorded. */
  function Retired(op: Op, s: Status): set<Entry> {
    match op
    case ClearAllCreates => set k | k in s.creates :: CreateEntry(k)
    case ClearAllMutations => (set k | k in s.creates :: CreateEntry(k)) + (set k | k in s.removals :: RemovalEntry(k))
    case ClearRollback(key, _, createKey, assignmentKey, updateKey) =>
      {CreateEntry(createKey), CreateEntry(assignmentKey), CreateEntry(updateKey), RemovalEntry(key)}
    case _ => {}
  }

  // ----- where a receipt of the new status comes from -----

  predicate IsFresh(r: Removal) {
    && NoIssue(r.issueID, r.issuedAt) && r.absenceAt.NoStamp?
    && match r.kind
       case VMRemoval => r.phase == if r.purpose == Rollback then RollbackDiscovery else VMIntent
       case FloatingIPRemoval => r.phase.UnassignIntent? || r.phase.DeleteIntent?
       case FirewallRemoval => r.phase.FirewallIntent?
  }

  /** A removal receipt is kept, edited by this very transition, or freshly inserted. */
  lemma RemovalSource(op: Op, s: Status, d: Status, k: string)
    requires Perform(op, s) == Ok(d)
    ensures k in d.removals ==>
              || (k in s.removals && d.removals[k] == s.removals[k])
              || (EditsReceipt(op) && op.key == k && k in s.removals
                 && EditReceipt(op, s.removals[k]) == Ok(d.removals[k]))
              || (k !in s.removals && IsFresh(d.removals[k]))
    ensures k in s.removals && k !in d.removals ==> RemovalEntry(k) in Retired(op, s)
  {
  }

  /** The create ledger is untouched by the removal transitions. */
  lemma EditsLeaveCreates(op: Op, s: Status, d: Status)
    requires Perform(op, s) == Ok(d)
    ensures EditsReceipt(op) ==> d.creates == s.creates
  {
  }

  // ----- what transitions do to authority -----

  lemma EditedLiveIssue(op: Op, r: Removal, r': Removal, action: Action)
    requires EditsReceipt(op) && EditReceipt(op, r) == Ok(r')
    requires r'.phase == action.IssuedPhase()
    ensures (r.phase == r'.phase && r.issueID == r'.issueID)
            || (op.IssueRemoval? && op.action == action && op.id == r'.issueID)
  {
  }

  lemma LiveRemovalOrigin(op: Op, s: Status, d: Status, key: string, action: Action)
    requires Perform(op, s) == Ok(d)
    requires key in d.removals && d.removals[key].phase == action.IssuedPhase()
    ensures || (key in s.removals && s.removals[key].phase == action.IssuedPhase()
            && s.removals[key].issueID == d.removals[key].issueID)
            || Opens(op, RemovalSlot(key, action), d.removals[key].issueID)
  {
    RemovalSource(op, s, d, key);
    if EditsReceipt(op) && key == op.key && key in s.removals
        && EditReceipt(op, s.removals[key]) == Ok(d.removals[key]) {
      EditedLiveIssue(op, s.removals[key], d.removals[key], action);
    }
  }

  lemma LiveCreateOrigin(op: Op, s: Status, d: Status, key: string)
    requires Perform(op, s) == Ok(d)
    requires key in d.creates && d.creates[key].phase == Issued
    ensures (key in s.creates && s.creates[key] == d.creates[key]) || Opens(op, CreateSlot(key), d.creates[key].issueID)
  {
    EditsLeaveCreates(op, s, d);
  }

  /** No transition but an issue makes an issue identity live. */
  lemma LiveIssueOrigin(op: Op, s: Status, d: Status, slot: Slot)
    requires Perform(op, s) == Ok(d)
    requires LiveIssue(d, slot).Ok?
    ensures LiveIssue(s, slot) == LiveIssue(d, slot) || Opens(op, slot, LiveIssue(d, slot).value)
  {
    match slot
    case RemovalSlot(key, action) => LiveRemovalOrigin(op, s, d, key, action);
    case CreateSlot(key) => LiveCreateOrigin(op, s, d, key);
  }

  lemma EditedAccounts(op: Op, r: Removal, r': Removal, action: Action)
    requires EditsReceipt(op) && EditReceipt(op, r) == Ok(r')
    requires r.phase == action.IssuedPhase() || Rank(r.phase) > Rank(action.IssuedPhase())
    ensures || Rank(r'.phase) > Rank(action.IssuedPhase())
            || (r'.phase == r.phase == action.IssuedPhase() && r'.issueID == r.issueID)
            || (op.ResetRemoval? && op.action == action && r.phase == action.IssuedPhase())
  {
  }

  /** An accounted issue stays accounted unless its slot is handed back or its entry retired. */
  lemma AccountsKept(op: Op, s: Status, d: Status, slot: Slot, id: string)
    requires Perform(op, s) == Ok(d)
    requires Accounts(s, slot, id)
    ensures Accounts(d, slot, id) || EntryOf(slot) in Retired(op, s)
            || (Closes(op, slot) && LiveIssue(s, slot) == Ok(id))
  {
    match slot {
      case RemovalSlot(key, action) =>
        RemovalSource(op, s, d, key);
        if EditsReceipt(op) && key == op.key && key in d.removals
            && EditReceipt(op, s.removals[key]) == Ok(d.removals[key]) {
          EditedAccounts(op, s.removals[key], d.removals[key], action);
        }
      case CreateSlot(key) => EditsLeaveCreates(op, s, d);
    }
  }

  /** An issue is granted only where the ledger accounts for none, and then it accounts for it. */
  lemma OpensFromUnaccounted(op: Op, s: Status, d: Status, slot: Slot, id: string)
    requires Perform(op, s) == Ok(d)
    requires Opens(op, slot, id)
    ensures forall other :: !Accounts(s, slot, other)
    ensures Accounts(d, slot, id) && LiveIssue(d, slot) == Ok(id) && d != s
  {
    assert Accounts(d, slot, id);
    assert !Accounts(s, slot, id);
  }
}

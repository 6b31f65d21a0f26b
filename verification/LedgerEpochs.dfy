/** When the same create key is called again: what must have happened in between, and a run in
    which it does happen. */
module LedgerEpochs {
  import opened Outcomes
  import opened Text
  import opened AddressPool
  import opened Ledger
  import opened LedgerRules
  import opened LedgerRuns
  import opened LedgerShape

  /** The event commits a transition that drops the entry. */
  predicate Retires(w: World, e: Event, entry: Entry) {
    e.Write? && Possible(w, e) && SwapOf(w, e.who, e.op, e.fault).committed && entry in Retired(e.op, w.stored)
  }

  lemma RunSplits(w: World, events: seq<Event>, k: nat)
    requires k <= |events|
    ensures Run(w, events) == Run(Run(w, events[..k]), events[k..])
  {
    RunJoins(w, events[..k], events[k..]);
    assert events[..k] + events[k..] == events;
  }

  lemma RunSnoc(w: World, events: seq<Event>, k: nat)
    requires k < |events|
    ensures Run(w, events[..k + 1]) == Step(Run(w, events[..k]), events[k])
  {
    RunSplits(w, events[..k + 1], k);
    assert events[..k + 1][..k] == events[..k] && events[..k + 1][k..] == [events[k]];
    var v := Run(w, events[..k]);
    assert [events[k]][1..] == [];
    assert Run(v, [events[k]]) == Run(Step(v, events[k]), []);
  }

  // ----- generations move one retirement at a time -----

  lemma GenerationMoves(w: World, e: Event, entry: Entry)
    ensures Generation(Step(w, e), entry) == Generation(w, entry) + (if Retires(w, e, entry) then 1 else 0)
  {
    if e.Write? && Possible(w, e) { WriteGenerations(w, e.who, e.op, e.fault, entry); }
  }

  /** A run that reaches a later generation passes through the retirement of every earlier one. */
  lemma {:induction false} RetirementFound(w: World, events: seq<Event>, entry: Entry, g: nat) returns (k: nat)
    requires Generation(w, entry) <= g < Generation(Run(w, events), entry)
    ensures k < |events| && Retires(Run(w, events[..k]), events[k], entry)
            && Generation(Run(w, events[..k]), entry) == g
    decreases |events|
  {
    GenerationMoves(w, events[0], entry);
    if Generation(w, entry) == g && Retires(w, events[0], entry) {
      k := 0;
      assert events[..0] == [];
    } else {
      var j := RetirementFound(Step(w, events[0]), events[1..], entry, g);
      k := j + 1;
      assert events[..k][0] == events[0] && events[..k][1..] == events[1..][..j];
    }
  }

  // ----- issue identities carry the generation they were granted in -----

  predicate IssuesBounded(w: World) {
    forall id :: id in w.issues ==> w.issues[id].1 <= Generation(w, EntryOf(w.issues[id].0))
  }

  /** Identities are only added, by the grant of the current generation; a retirement adds none. */
  lemma IssuesGrow(w: World, e: Event, id: string)
    ensures id in w.issues ==> id in Step(w, e).issues && Step(w, e).issues[id] == w.issues[id]
    ensures id !in w.issues && id in Step(w, e).issues ==>
              Step(w, e).issues[id].1 == Generation(w, EntryOf(Step(w, e).issues[id].0))
    ensures (exists entry :: Retires(w, e, entry)) ==> Step(w, e).issues == w.issues
  {
  }

  lemma StepKeepsIssuesBounded(w: World, e: Event)
    requires IssuesBounded(w)
    ensures IssuesBounded(Step(w, e))
  {
    var w' := Step(w, e);
    forall id | id in w'.issues ensures w'.issues[id].1 <= Generation(w', EntryOf(w'.issues[id].0)) {
      IssuesGrow(w, e, id);
      GenerationMoves(w, e, EntryOf(w'.issues[id].0));
    }
  }

  lemma {:induction false} RunKeepsIssuesBounded(w: World, events: seq<Event>)
    requires IssuesBounded(w)
    ensures IssuesBounded(Run(w, events))
    decreases |events|
  {
    if events != [] {
      StepKeepsIssuesBounded(w, events[0]);
      RunKeepsIssuesBounded(Step(w, events[0]), events[1..]);
    }
  }

  /** An identity granted later belongs to this generation or a later one. */
  lemma {:induction false} GrantedLater(w: World, events: seq<Event>, id: string)
    requires id !in w.issues && id in Run(w, events).issues
    ensures Generation(w, EntryOf(Run(w, events).issues[id].0)) <= Run(w, events).issues[id].1
    decreases |events|
  {
    if events != [] {
      var w' := Step(w, events[0]);
      IssuesGrow(w, events[0], id);
      if id in w'.issues {
        IssueStays(w', events[1..], id);
      } else {
        GrantedLater(w', events[1..], id);
        GenerationMoves(w, events[0], EntryOf(Run(w, events).issues[id].0));
      }
    }
  }

  lemma {:induction false} IssueStays(w: World, events: seq<Event>, id: string)
    requires id in w.issues
    ensures id in Run(w, events).issues && Run(w, events).issues[id] == w.issues[id]
    decreases |events|
  {
    if events != [] {
      IssuesGrow(w, events[0], id);
      IssueStays(Step(w, events[0]), events[1..], id);
    }
  }

  // ----- a second call of the same slot -----

  /** Position k of the run lies between the grants of two issue identities. */
  predicate Between(events: seq<Event>, k: nat, first: string, second: string) {
    k < |events| && first in Run(INITIAL, events[..k]).issues && second !in Run(INITIAL, events[..k]).issues
  }

  /** In every run, between the grants of two calls of one slot, a transition that drops the slot's
      entry committed. */
  lemma RetirementBetween(events: seq<Event>, i: nat, j: nat) returns (k: nat)
    requires var sent := Run(INITIAL, events).sent;
             i < |sent| && j < |sent| && sent[i].slot == sent[j].slot && sent[i].generation < sent[j].generation
    ensures var sent := Run(INITIAL, events).sent;
            && Between(events, k, sent[i].id, sent[j].id)
            && Retires(Run(INITIAL, events[..k]), events[k], EntryOf(sent[i].slot))
            && Generation(Run(INITIAL, events[..k]), EntryOf(sent[i].slot)) == sent[i].generation
  {
    var w := Run(INITIAL, events);
    var t, u, entry := w.sent[i], w.sent[j], EntryOf(w.sent[i].slot);
    RunKeepsSafe(INITIAL, events);
    assert Registered(w, t) && Registered(w, u);
    k := RetirementFound(INITIAL, events, entry, t.generation);
    var v := Run(INITIAL, events[..k]);
    RunSplits(INITIAL, events, k);
    RunSplits(INITIAL, events, k + 1);
    RunSnoc(INITIAL, events, k);
    if t.id !in v.issues {
      IssuesGrow(v, events[k], t.id);
      GenerationMoves(v, events[k], entry);
      GrantedLater(Step(v, events[k]), events[k + 1..], t.id);
    }
    if u.id in v.issues {
      RunKeepsIssuesBounded(INITIAL, events[..k]);
      IssueStays(v, events[k..], u.id);
    }
  }

  predicate ClearsKey(op: Op, key: string) {
    || op.ClearAllCreates? || op.ClearAllMutations?
    || (op.ClearRollback? && (key == op.createKey || key == op.assignmentKey || key == op.updateKey))
  }

  lemma RetiringClears(w: World, e: Event, key: string)
    requires Retires(w, e, CreateEntry(key))
    ensures ClearsKey(e.op, key)
  {
  }

  /** In every run, two calls for one create key have, between their grants, a committed clearing of
      all create attempts, of all attempts, or of a completed rollback of that key. */
  lemma SecondCreateFollowsClearing(events: seq<Event>, i: nat, j: nat, key: string)
    requires var sent := Run(INITIAL, events).sent;
             i < j < |sent| && sent[i].slot == sent[j].slot == CreateSlot(key)
    ensures var sent := Run(INITIAL, events).sent;
            exists k: nat ::
              && (Between(events, k, sent[i].id, sent[j].id) || Between(events, k, sent[j].id, sent[i].id))
              && Retires(Run(INITIAL, events[..k]), events[k], CreateEntry(key)) && ClearsKey(events[k].op, key)
  {
    AtMostOneCall(events, i, j);
    var sent := Run(INITIAL, events).sent;
    if sent[i].generation < sent[j].generation {
      var k := RetirementBetween(events, i, j);
      RetiringClears(Run(INITIAL, events[..k]), events[k], key);
    } else {
      var k := RetirementBetween(events, j, i);
      RetiringClears(Run(INITIAL, events[..k]), events[k], key);
    }
  }

  // ----- without a clear-all, the first VM was gone -----

  lemma PotentWas(w: World, e: Event, t: Ticket)
    requires Safe(w) && t.id in w.issues && Potent(Step(w, e), t)
    ensures Potent(w, t)
  {
    if Possible(w, e) {
      match e
      case Restart(who, memory) =>
        if t !in w.sent { var p :| Holds(Step(w, e), p, t); assert Holds(w, p, t); }
      case Look(who, target, sight) =>
        if t !in w.sent { var p :| Holds(Step(w, e), p, t); assert Holds(w, p, t); }
      case Send(who, blocked) => SendShrinksPotent(w, who, blocked, t);
      case Write(who, op, fault) => WritePotent(w, who, op, fault, t);
    }
  }

  /** A call that is sent later under an identity granted before was sendable or sent before. */
  lemma {:induction false} PotentBefore(w: World, events: seq<Event>, t: Ticket)
    requires Safe(w) && t.id in w.issues && t in Run(w, events).sent
    ensures Potent(w, t)
    decreases |events|
  {
    if events != [] {
      StepKeepsSafe(w, events[0]);
      IssuesGrow(w, events[0], t.id);
      PotentBefore(Step(w, events[0]), events[1..], t);
      PotentWas(w, events[0], t);
    }
  }

  /** At v a completed rollback with receipt r is about to be cleared: its VM was read gone twice,
      spaced, and the receipt under `key` is the one that accounts for issue `id`. */
  ghost predicate RolledBack(v: World, op: Op, key: string, id: string, spacing: nat) {
    && op.ClearRollback? && op.key in v.stored.removals && key in v.stored.creates
       && v.stored.creates[key].issueID == id
    && var r, a := v.stored.removals[op.key], v.stored.creates[key];
       && r.kind == VMRemoval && r.purpose == Rollback && r.phase == Absent
       && (exists x: nat, y: nat :: VMGoneTwice(v, op.key, r, spacing, x, y))
       && (a.kind == VirtualMachine ==> a.phase == Materialized && EqualFold(a.uuid, r.uuid))
  }

  /** A rollback is cleared only as a settled VM receipt, and a VM receipt it clears is of that VM. */
  lemma ClearedReceipts(s: Status, op: Op, key: string)
    requires ValidLedger(s) && op.ClearRollback? && Perform(op, s).Ok? && ClearsKey(op, key) && key in s.creates
    ensures op.key in s.removals && s.removals[op.key].kind == VMRemoval && s.removals[op.key].purpose == Rollback
            && s.removals[op.key].phase == Absent
    ensures s.creates[key].kind == VirtualMachine ==>
              s.creates[key].uuid != "" && EqualFold(s.creates[key].uuid, s.removals[op.key].uuid)
  {
    var r, a := s.removals[op.key], s.creates[key];
    assert ValidRemoval(r);
    if a.kind == VirtualMachine {
      assert key == op.createKey && IsUUID(r.uuid);
      assert |a.uuid| == |Lower(a.uuid)| == |r.uuid|;
    }
  }

  lemma PotentHasReceipt(v: World, key: string, t: Ticket)
    requires Safe(v) && Potent(v, t) && t.slot == CreateSlot(key) && t.generation == Generation(v, CreateEntry(key))
    ensures key in v.stored.creates && v.stored.creates[key].issueID == t.id
    ensures v.stored.creates[key].phase == Issued || v.stored.creates[key].phase == Materialized
  {
    assert Accounts(v.stored, t.slot, t.id);
  }

  lemma CommittedIsPerformed(v: World, e: Event, entry: Entry)
    requires Retires(v, e, entry)
    ensures Perform(e.op, v.stored).Ok?
  {
    WriteStores(v, e.who, e.op, e.fault);
  }

  lemma ClearingIsSettled(v: World, e: Event, key: string, t: Ticket)
    requires Safe(v) && Shaped(v.stored) && Retires(v, e, CreateEntry(key)) && e.op.ClearRollback?
    requires t.slot == CreateSlot(key) && t.generation == Generation(v, CreateEntry(key)) && Potent(v, t)
    ensures e.op.key in v.stored.removals && key in v.stored.creates && v.stored.creates[key].issueID == t.id
    ensures var r, a := v.stored.removals[e.op.key], v.stored.creates[key];
            && r.kind == VMRemoval && r.purpose == Rollback && r.phase == Absent
            && (a.kind == VirtualMachine ==> a.phase == Materialized && EqualFold(a.uuid, r.uuid))
  {
    CommittedIsPerformed(v, e, CreateEntry(key));
    RetiringClears(v, e, key);
    PotentHasReceipt(v, key, t);
    ClearedReceipts(v.stored, e.op, key);
    assert ValidCreate(v.stored.creates[key]);
  }

  lemma SettledIsRolledBack(v: World, op: Op, key: string, id: string, spacing: nat)
    requires op.ClearRollback? && op.key in v.stored.removals && key in v.stored.creates
    requires v.stored.creates[key].issueID == id && Supported(v, op.key, spacing)
    requires var r, a := v.stored.removals[op.key], v.stored.creates[key];
             && r.kind == VMRemoval && r.purpose == Rollback && r.phase == Absent
             && (a.kind == VirtualMachine ==> a.phase == Materialized && EqualFold(a.uuid, r.uuid))
    ensures RolledBack(v, op, key, id, spacing)
  {
    assert Evidenced(v, op.key, v.stored.removals[op.key], spacing);
  }

  lemma ClearingIsOfGoneVM(v: World, e: Event, key: string, t: Ticket, spacing: nat)
    requires Safe(v) && Shaped(v.stored) && Retires(v, e, CreateEntry(key)) && e.op.ClearRollback?
             && Supported(v, e.op.key, spacing)
    requires t.slot == CreateSlot(key) && t.generation == Generation(v, CreateEntry(key)) && Potent(v, t)
    ensures RolledBack(v, e.op, key, t.id, spacing)
  {
    ClearingIsSettled(v, e, key, t);
    SettledIsRolledBack(v, e.op, key, t.id, spacing);
  }

  lemma ReachedIsSupported(events: seq<Event>, key: string, spacing: nat)
    requires forall m :: 0 <= m < |events| ==> SpacedEvent(events[m], spacing)
    ensures var w := Run(INITIAL, events); Safe(w) && Shaped(w.stored) && Supported(w, key, spacing)
  {
    RunKeepsSafe(INITIAL, events);
    EveryLedgerIsShaped(INITIAL, events);
    AbsenceIsEvidenced(INITIAL, events, key, spacing);
  }

  /** Without a clear-all, a second call for a create key is granted only after the VM that the key's
      slot was rolled back from was read gone twice, at least the spacing apart; and for a VM key
      that is the very VM that the first call's receipt had recorded. */
  lemma SecondCreateFollowsAbsence(events: seq<Event>, i: nat, j: nat, key: string, spacing: nat)
    requires forall m :: 0 <= m < |events| ==> SpacedEvent(events[m], spacing)
    requires NoClearAll(events)
    requires var sent := Run(INITIAL, events).sent;
             i < |sent| && j < |sent| && sent[i].slot == sent[j].slot == CreateSlot(key)
                 && sent[i].generation < sent[j].generation
    ensures var sent := Run(INITIAL, events).sent;
            exists k: nat :: Between(events, k, sent[i].id, sent[j].id)
                             && events[k].Write?
                                && RolledBack(Run(INITIAL, events[..k]), events[k].op, key, sent[i].id, spacing)
  {
    var t := Run(INITIAL, events).sent[i];
    var k := RetirementBetween(events, i, j);
    var v := Run(INITIAL, events[..k]);
    RetiringClears(v, events[k], key);
    ReachedIsSupported(events[..k], events[k].op.key, spacing);
    RunSplits(INITIAL, events, k);
    PotentBefore(v, events[k..], t);
    ClearingIsOfGoneVM(v, events[k], key, t, spacing);
  }

  // ----- a run with two calls of one create slot -----

  /** The only controller's memory is the stored status, and it holds no right. */
  predicate Ready(w: World) {
    0 in w.controllers && w.controllers[0] == Controller(w.stored, Idle)
  }

  /** A transition of the only controller that changes the status is committed. */
  lemma Commits(w: World, op: Op, d: Status)
    requires Ready(w) && MayAttempt(w, 0, op) && Perform(op, w.stored) == Ok(d) && d != w.stored
    ensures var w' := Step(w, Write(0, op, NoFault));
            && w'.stored == d && 0 in w'.controllers && w'.controllers[0].memory == d && w'.sent == w.sent
            && w'.observations == w.observations + Sighting(w, 0, op)
            && (Opening(op).Fail? ==> Ready(w') && w'.issues == w.issues)
            && (Opening(op).Ok? ==> var (slot, id) := Opening(op).value;
                  && w'.controllers[0].activity == Holding(Ticket(slot, Generation(w, EntryOf(slot)), id))
                  && w'.issues.Keys == w.issues.Keys + {id})
            && forall entry ::
               Generation(w', entry) == Generation(w, entry) + (if entry in Retired(op, w.stored) then 1 else 0)
  {
    forall entry ensures Generation(Step(w, Write(0, op, NoFault)), entry) ==
        Generation(w, entry) + (if entry in Retired(op, w.stored) then 1 else 0) {
      WriteGenerations(w, 0, op, NoFault, entry);
    }
  }

  /** A granted call of the only controller is sent. */
  lemma IssuesAndSends(w: World, op: Op, d: Status)
    requires Ready(w) && Opening(op).Ok? && MayAttempt(w, 0, op) && Perform(op, w.stored) == Ok(d) && d != w.stored
    ensures var w' := Step(Step(w, Write(0, op, NoFault)), Send(0, false));
            var (slot, id) := Opening(op).value;
            && Ready(w') && w'.stored == d && w'.sent == w.sent + [Ticket(slot, Generation(w, EntryOf(slot)), id)]
            && w'.issues.Keys == w.issues.Keys + {id} && forall entry :: Generation(w', entry) == Generation(w, entry)
  {
    Commits(w, op, d);
    assert Retired(op, w.stored) == {};
  }

  /** One edit of the only controller's removal receipt. */
  lemma Edits(w: World, op: Op, r: Removal, r': Removal)
    requires Ready(w) && EditsReceipt(op) && !op.ClearAbsence? && !op.ResetRemoval? && !op.IssueRemoval?
    requires RecordsRead(op) ==> JustRead(w, 0, op)
    requires op.key in w.stored.removals && w.stored.removals[op.key] == r && EditReceipt(op, r) == Ok(r') && r' != r
    ensures var w' := Step(w, Write(0, op, NoFault));
            && Ready(w') && w'.stored.creates == w.stored.creates && op.key in w'.stored.removals
               && w'.stored.removals[op.key] == r'
            && w'.sent == w.sent && w'.issues == w.issues
               && forall entry :: Generation(w', entry) == Generation(w, entry)
  {
    var d := PutRemoval(w.stored, op.key, r');
    assert d.removals[op.key] != w.stored.removals[op.key];
    Commits(w, op, d);
  }

  lemma RunOne(w: World, e: Event)
    ensures Run(w, [e]) == Step(w, e)
  {
    assert [e][1..] == [];
    assert Run(Step(w, e), []) == Step(w, e);
  }

  lemma RunTwo(w: World, e: Event, f: Event)
    ensures Run(w, [e, f]) == Step(Step(w, e), f)
  {
    assert [e, f][1..] == [f];
    RunOne(Step(w, e), f);
  }

  /** The two worlds agree on what other entries and identities look like. */
  ghost predicate Alike(w: World, w': World) {
    w'.issues == w.issues && w'.sent == w.sent && forall entry :: Generation(w', entry) == Generation(w, entry)
  }

  lemma IntentRun(w: World, key: string) returns (es: seq<Event>)
    requires Ready(w) && key !in w.stored.creates
    ensures NoClearAll(es)
    ensures var w' := Run(w, es);
            && Ready(w') && Alike(w, w') && w'.stored.removals == w.stored.removals
            && w'.stored.creates ==
               w.stored.creates[key := CreateAttempt(VirtualMachine, "vm", "hash", Intent, "", NoStamp, "")]
  {
    var d := PutCreate(w.stored, key, CreateAttempt(VirtualMachine, "vm", "hash", Intent, "", NoStamp, ""));
    assert key in d.creates;
    es := [Write(0, PersistIntent(key, VirtualMachine, "vm", "hash"), NoFault)];
    Commits(w, es[0].op, d);
    RunOne(w, es[0]);
  }

  /** Intent, issue and call of one VM create. */
  lemma CallRun(w: World, key: string, id: string) returns (es: seq<Event>)
    requires Ready(w) && key !in w.stored.creates && IsIssueID(id) && id !in w.issues
    ensures NoClearAll(es)
    ensures var w' := Run(w, es);
            && Ready(w') && w'.sent == w.sent + [Ticket(CreateSlot(key), Generation(w, CreateEntry(key)), id)]
            && w'.issues.Keys == w.issues.Keys + {id} && w'.stored.removals == w.stored.removals
            && (forall entry :: Generation(w', entry) == Generation(w, entry))
            && w'.stored.creates ==
               w.stored.creates[key := CreateAttempt(VirtualMachine, "vm", "hash", Issued, id, At(0), "")]
  {
    var intent := IntentRun(w, key);
    var w1 := Run(w, intent);
    var issue := PersistIssue(key, VirtualMachine, "vm", "hash", id, 0);
    var d := PutCreate(w1.stored, key, w1.stored.creates[key].(phase := Issued, issueID := id, issuedAt := At(0)));
    assert d.creates[key] != w1.stored.creates[key] && Perform(issue, w1.stored) == Ok(d);
    IssuesAndSends(w1, issue, d);
    RunTwo(w1, Write(0, issue, NoFault), Send(0, false));
    es := intent + [Write(0, issue, NoFault), Send(0, false)];
    RunJoins(w, intent, [Write(0, issue, NoFault), Send(0, false)]);
  }

  lemma AnchorRun(w: World, key: string, uuid: string) returns (es: seq<Event>)
    requires Ready(w) && key in w.stored.creates && IsUUID(uuid) && Lower(uuid) == uuid
    requires Lookup(w.stored, key, VirtualMachine, "vm", "hash").Ok? && w.stored.creates[key].phase == Issued
    ensures NoClearAll(es)
    ensures var w' := Run(w, es);
            && Ready(w') && Alike(w, w') && w'.stored.removals == w.stored.removals
            && key in w'.stored.creates
               && w'.stored.creates[key] == w.stored.creates[key].(phase := Materialized, uuid := uuid)
            && w'.stored.creates.Keys == w.stored.creates.Keys
  {
    var op := Materialize(key, VirtualMachine, "vm", "hash", uuid);
    var d := PutCreate(w.stored, key, w.stored.creates[key].(phase := Materialized, uuid := uuid));
    assert d.creates[key] != w.stored.creates[key];
    Commits(w, op, d);
    es := [Write(0, op, NoFault)];
    RunOne(w, es[0]);
  }

  /** Record the rollback, find its address. */
  lemma OpenRun(w: World, key: string, uuid: string, address: string) returns (es: seq<Event>)
    requires Ready(w) && key !in w.stored.removals && IsUUID(uuid) && Lower(uuid) == uuid && IsPublicIPv4(address)
    ensures NoClearAll(es)
    ensures var w' := Run(w, es);
            && Ready(w') && Alike(w, w') && w'.stored.creates == w.stored.creates && key in w'.stored.removals
            && w'.stored.removals[key] ==
               FreshVMRemoval(Rollback, "vm", uuid, "", "ip").(phase := VMIntent, floatingIPAddress := address)
  {
    var ensure, r :=
        EnsureVMRemoval(key, Rollback, "vm", uuid, "", "ip"), FreshVMRemoval(Rollback, "vm", uuid, "", "ip");
    var d := PutRemoval(w.stored, key, r);
    assert key in d.removals;
    Commits(w, ensure, d);
    var w1 := Step(w, Write(0, ensure, NoFault));
    Edits(w1, DiscoverAddress(key, address), r, r.(phase := VMIntent, floatingIPAddress := address));
    es := [Write(0, ensure, NoFault), Write(0, DiscoverAddress(key, address), NoFault)];
    RunTwo(w, es[0], es[1]);
  }

  lemma DeleteRun(w: World, key: string, id: string) returns (es: seq<Event>)
    requires Ready(w) && key in w.stored.removals && ValidRemoval(w.stored.removals[key])
             && w.stored.removals[key].phase == VMIntent
    requires IsIssueID(id) && id !in w.issues
    ensures NoClearAll(es)
    ensures var w' := Run(w, es);
            && Ready(w') && w'.stored.creates == w.stored.creates && key in w'.stored.removals
            && w'.stored.removals[key] == w.stored.removals[key].(phase := VMIssued, issueID := id, issuedAt := At(0))
            && w'.sent == w.sent + [Ticket(RemovalSlot(key, DeleteVM), Generation(w, RemovalEntry(key)), id)]
            && w'.issues.Keys == w.issues.Keys + {id} && forall entry :: Generation(w', entry) == Generation(w, entry)
  {
    var op := IssueRemoval(key, DeleteVM, id, 0);
    var d := PutRemoval(w.stored, key, w.stored.removals[key].(phase := VMIssued, issueID := id, issuedAt := At(0)));
    assert d.removals[key] != w.stored.removals[key];
    IssuesAndSends(w, op, d);
    es := [Write(0, op, NoFault), Send(0, false)];
    RunTwo(w, es[0], es[1]);
  }

  /** One read of a target, put on record. */
  lemma SightingRun(w: World, op: Op, r: Removal, r': Removal) returns (es: seq<Event>)
    requires Ready(w) && RecordsRead(op)
    requires op.key in w.stored.removals && w.stored.removals[op.key] == r && EditReceipt(op, r) == Ok(r') && r' != r
    ensures NoClearAll(es) && es == [Look(0, TargetOf(op.seen), op.sight), Write(0, op, NoFault)]
    ensures var w' := Run(w, es);
            && Ready(w') && Alike(w, w') && w'.stored.creates == w.stored.creates
            && op.key in w'.stored.removals && w'.stored.removals[op.key] == r'
  {
    es := [Look(0, TargetOf(op.seen), op.sight), Write(0, op, NoFault)];
    Edits(Step(w, es[0]), op, r, r');
    RunTwo(w, es[0], es[1]);
  }

  /** Two spaced reads of a target that is gone. */
  lemma GoneRun(w: World, key: string, next: RemovalPhase) returns (es: seq<Event>)
    requires Ready(w) && key in w.stored.removals && w.stored.removals[key].absenceAt.NoStamp?
    requires Settled(w.stored.removals[key], Gone) == Ok(next)
    ensures NoClearAll(es)
    ensures var w' := Run(w, es);
            && Ready(w') && Alike(w, w') && w'.stored.creates == w.stored.creates && key in w'.stored.removals
            && w'.stored.removals[key] == WithPhase(w.stored.removals[key], next)
  {
    var r := w.stored.removals[key];
    var seen := r.(absenceAt := At(0));
    var a := SightingRun(w, FirstAbsence(key, r, Gone, 0), r, seen);
    var b := SightingRun(Run(w, a), FinishAbsence(key, seen, Gone, 30, 30), seen, WithPhase(seen, next));
    RunJoins(w, a, b);
    es := a + b;
  }

  lemma ClearRun(w: World, key: string, createKey: string) returns (es: seq<Event>)
    requires Ready(w) && key in w.stored.removals && w.stored.removals[key].purpose == Rollback
             && w.stored.removals[key].phase == Absent
    requires RollbackMatches(w.stored, w.stored.removals[key], createKey, "a", "u")
    ensures NoClearAll(es)
    ensures var w' := Run(w, es);
            && Ready(w') && createKey !in w'.stored.creates && w'.issues == w.issues && w'.sent == w.sent
            && Generation(w', CreateEntry(createKey)) == Generation(w, CreateEntry(createKey)) + 1
  {
    var op := ClearRollback(key, w.stored.removals[key], createKey, "a", "u");
    var d := Perform(op, w.stored).value;
    assert key !in d.removals;
    Commits(w, op, d);
    es := [Write(0, op, NoFault)];
    RunOne(w, es[0]);
  }

  /** No event clears all attempts. */
  predicate NoClearAll(events: seq<Event>) {
    forall m :: 0 <= m < |events| && events[m].Write? ==>
          !events[m].op.ClearAllCreates? && !events[m].op.ClearAllMutations?
  }

  /** One repeated character, as an issue identity. */
  function Repeated(c: char): string { seq(32, _ => c) }

  function SampleUUID(): string { seq(36, i => if i == 8 || i == 13 || i == 18 || i == 23 then '-' else '1') }

  lemma SamplesAreWellFormed()
    ensures IsIssueID(Repeated('1')) && IsIssueID(Repeated('2')) && IsIssueID(Repeated('3'))
    ensures Repeated('1')[0] == '1' && Repeated('2')[0] == '2' && Repeated('3')[0] == '3'
    ensures IsUUID(SampleUUID()) && Lower(SampleUUID()) == SampleUUID() && Lower("") == ""
    ensures IsPublicIPv4(Quad(0x0101_0101))
  {
    assert IsGlobalUnicast(0x0101_0101) && !IsPrivate(0x0101_0101);
  }

  /** From a fresh start: a VM created and anchored. */
  lemma CreatedRun() returns (es: seq<Event>)
    ensures NoClearAll(es)
    ensures var w := Run(INITIAL, es);
            && Ready(w) && w.stored.removals == map[] && w.stored.creates.Keys == {"k"}
            && w.stored.creates["k"] ==
               CreateAttempt(VirtualMachine, "vm", "hash", Materialized, Repeated('1'), At(0), SampleUUID())
            && w.issues.Keys == {Repeated('1')} && Generation(w, CreateEntry("k")) == 0
            && w.sent == [Ticket(CreateSlot("k"), 0, Repeated('1'))]
  {
    SamplesAreWellFormed();
    var start := [Restart(0, EMPTY)];
    RunOne(INITIAL, start[0]);
    var w0 := Run(INITIAL, start);
    var a := CallRun(w0, "k", Repeated('1'));
    var w1 := Run(w0, a);
    var b := AnchorRun(w1, "k", SampleUUID());
    RunJoins(INITIAL, start, a);
    RunJoins(INITIAL, start + a, b);
    es := start + a + b;
  }

  /** From a fresh start: create a VM and roll it back to the end. */
  lemma RolledBackRun() returns (es: seq<Event>)
    ensures NoClearAll(es)
    ensures var w := Run(INITIAL, es);
            && Ready(w) && "r" in w.stored.removals && w.stored.removals["r"].purpose == Rollback
               && w.stored.removals["r"].phase == Absent
            && RollbackMatches(w.stored, w.stored.removals["r"], "k", "a", "u")
            && w.issues.Keys == {Repeated('1'), Repeated('2')} && Generation(w, CreateEntry("k")) == 0
            && |w.sent| == 2 && w.sent[0] == Ticket(CreateSlot("k"), 0, Repeated('1'))
  {
    SamplesAreWellFormed();
    var a := CreatedRun();
    var w1 := Run(INITIAL, a);
    var b := OpenRun(w1, "r", SampleUUID(), Quad(0x0101_0101));
    var w2 := Run(w1, b);
    var c := RollbackRun(w2, "r");
    RunJoins(INITIAL, a, b);
    RunJoins(INITIAL, a + b, c);
    es := a + b + c;
  }

  /** From the identified address: delete the VM, see it gone twice, see its address gone twice. */
  lemma RollbackRun(w: World, key: string) returns (es: seq<Event>)
    requires Ready(w) && key in w.stored.removals && Repeated('2') !in w.issues
    requires w.stored.removals[key] == FreshVMRemoval(Rollback, "vm", SampleUUID(), "", "ip").(phase := VMIntent,
             floatingIPAddress := Quad(0x0101_0101))
    ensures NoClearAll(es)
    ensures var w' := Run(w, es);
            && Ready(w') && w'.stored.creates == w.stored.creates && key in w'.stored.removals
            && w'.stored.removals[key] == WithPhase(w.stored.removals[key], Absent)
            && w'.issues.Keys == w.issues.Keys + {Repeated('2')} && |w'.sent| == |w.sent| + 1 && w.sent <= w'.sent
            && forall entry :: Generation(w', entry) == Generation(w, entry)
  {
    SamplesAreWellFormed();
    AddressIsNotEmpty();
    var a := DeleteRun(w, key, Repeated('2'));
    var w1 := Run(w, a);
    var b := GoneRun(w1, key, RollbackAfterVM);
    var w2 := Run(w1, b);
    var c := GoneRun(w2, key, Absent);
    RunJoins(w, a, b);
    RunJoins(w, a + b, c);
    es := a + b + c;
  }

  lemma AddressIsNotEmpty()
    ensures Quad(0x0101_0101) != ""
  {
    assert '.' in Quad(0x0101_0101);
  }

  /** Calls are counted per generation and not per key: there is a run in which two creates of one key
      are sent, with no clearing of all attempts but a completed rollback in between. */
  lemma KeyIsCalledTwice()
    ensures exists events: seq<Event>, i: nat, j: nat ::
              NoClearAll(events) && var sent := Run(INITIAL, events).sent;
              i < j < |sent| && sent[i].slot == sent[j].slot == CreateSlot("k") && sent[i].generation == 0
                  && sent[j].generation == 1
  {
    SamplesAreWellFormed();
    var a := RolledBackRun();
    var w1 := Run(INITIAL, a);
    var b := ClearRun(w1, "r", "k");
    var w2 := Run(w1, b);
    var c := CallRun(w2, "k", Repeated('3'));
    RunJoins(INITIAL, a, b);
    RunJoins(INITIAL, a + b, c);
    var sent := Run(INITIAL, a + b + c).sent;
    assert sent[0].slot == sent[2].slot == CreateSlot("k");
  }
}

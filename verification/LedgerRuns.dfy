/** Runs of any number of controllers over one stored ledger. A run is any sequence of events:
    crashes and restarts with any in-memory status, inventory reads with any answer,
    compare-and-swap writes that may conflict, fail, or commit and still report an error, and
    cloud calls that may be blocked locally or sent. An event that is not possible in a state
    leaves the state as it is, so every event sequence is a run. */
module LedgerRuns {
  import opened Outcomes
  import opened Text
  import opened Ledger
  import opened LedgerRules

  // ----- the status store, as one controller sees it -----

  /** Where a store operation breaks: not at all, before the new status is durable, or after. */
  datatype Fault = NoFault | BeforeCommit | AfterCommit

  datatype Swap = Swap(memory: Status, stored: Status, ok: bool, committed: bool)

  /** One compare-and-swap: the controller's memory, the stored status and the reported result. */
  function CompareAndSwap(memory: Status, stored: Status, wanted: Outcome<Status>, fault: Fault): Swap {
    if wanted.Fail? then Swap(memory, stored, false, false)
    else if wanted.value == memory then Swap(memory, stored, true, false)
    else if stored != memory then Swap(memory, stored, false, false)
    else
      match fault
      case NoFault => Swap(wanted.value, wanted.value, true, true)
      case BeforeCommit => Swap(memory, stored, false, false)
      case AfterCommit => Swap(memory, wanted.value, false, true)
  }

  // ----- worlds and events -----

  /** The right to send one call: the slot, the slot's generation, and the issue identity. */
  datatype Ticket = Ticket(slot: Slot, generation: nat, id: string)

  datatype Activity = Idle | Holding(ticket: Ticket) | Blocked(ticket: Ticket)

  datatype Controller = Controller(memory: Status, activity: Activity)

  /** One inventory read of a removal target, and how many observations were durable before it. */
  datatype Reading = Reading(target: Target, sight: Sight, after: nat)

  /** A read made durable by the write that records it as a first absence (`since` fails) or that
      settles the first absence recorded at `since`; `read` is its index among the reads. */
  datatype Observation = Observation(
    key: string, generation: nat, target: Target, phase: RemovalPhase, sight: Sight, time: int,
    since: Outcome<int>, read: nat)

  /** `latest` is the read a controller made last, as long as it has done nothing else since. */
  datatype World = World(
    stored: Status, controllers: map<nat, Controller>, generations: map<Entry, nat>,
    issues: map<string, (Slot, nat)>, sent: seq<Ticket>, observations: seq<Observation>,
    readings: seq<Reading>, latest: map<nat, nat>)

  datatype Event =
    | Restart(who: nat, memory: Status)
    | Look(who: nat, target: Target, sight: Sight)
    | Write(who: nat, op: Op, fault: Fault)
    | Send(who: nat, blocked: bool)

  const INITIAL: World := World(EMPTY, map[], map[], map[], [], [], [], map[])

  function Generation(w: World, e: Entry): nat {
    if e in w.generations then w.generations[e] else 0
  }

  function Advance(generations: map<Entry, nat>, retired: set<Entry>): map<Entry, nat> {
    map e | e in generations.Keys + retired ::
      (if e in generations then generations[e] else 0) + (if e in retired then 1 else 0)
  }

  predicate Working(c: Controller, slot: Slot) {
    !c.activity.Idle? && c.activity.ticket.slot == slot
  }

  /** The slot and identity a transition would open. */
  function Opening(op: Op): Outcome<(Slot, string)> {
    match op
    case PersistIssue(key, _, _, _, id, _) => Ok((CreateSlot(key), id))
    case IssueRemoval(key, action, id, _) => Ok((RemovalSlot(key, action), id))
    case _ => Fail
  }

  /** What the controller's code guarantees of any transition it attempts: a grant carries a minted
      issue identity, a rollback a selected candidate. */
  predicate WellFormed(op: Op) {
    && (Opening(op).Ok? ==> IsIssueID(Opening(op).value.1))
    && (op.PersistRollback? ==> WellChosen(op.candidate))
  }

  /** Transitions that put an inventory read on record. */
  predicate RecordsRead(op: Op) { op.FirstAbsence? || op.FinishAbsence? }

  /** The controller's last event was a read that showed what the transition records. */
  predicate JustRead(w: World, who: nat, op: Op)
    requires RecordsRead(op)
  {
    && who in w.latest && w.latest[who] < |w.readings|
    && w.readings[w.latest[who]].target == TargetOf(op.seen) && w.readings[w.latest[who]].sight == op.sight
  }

  /** When the controller's code may attempt the transition: a reset follows its own grant, a
      rejection follows its own locally blocked call, an absence directly follows the read that
      showed it, and a grant carries a fresh identity. Everything else may be attempted at any time. */
  predicate MayAttempt(w: World, who: nat, op: Op)
    requires who in w.controllers
  {
    var c := w.controllers[who];
    && WellFormed(op) && (Opening(op).Ok? ==> Opening(op).value.1 !in w.issues)
    && (RecordsRead(op) ==> JustRead(w, who, op))
    && match op
       case ResetIssue(key, _, _, _) => c.activity.Holding? && Working(c, CreateSlot(key))
       case Reject(key, _, _, _) => c.activity.Blocked? && Working(c, CreateSlot(key))
       case ResetRemoval(key, action) => Working(c, RemovalSlot(key, action))
       case _ => true
  }

  predicate Possible(w: World, e: Event) {
    match e
    case Restart(_, _) => true
    case Look(who, _, _) => who in w.controllers
    case Write(who, op, _) => who in w.controllers && MayAttempt(w, who, op)
    case Send(who, _) => who in w.controllers && w.controllers[who].activity.Holding?
  }

  function AfterWrite(w: World, c: Controller, op: Op, ok: bool): Activity {
    match Opening(op)
    case Ok((slot, id)) => if ok then Holding(Ticket(slot, Generation(w, EntryOf(slot)), id)) else Idle
    case Fail => if op.ResetIssue? || op.ResetRemoval? then Idle else c.activity
  }

  function LatestRead(w: World, who: nat): nat { if who in w.latest then w.latest[who] else 0 }

  function Sighting(w: World, who: nat, op: Op): seq<Observation> {
    match op
    case FirstAbsence(key, seen, sight, now) =>
      [Observation(key, Generation(w, RemovalEntry(key)), TargetOf(seen), seen.phase, sight, now,
                   Fail, LatestRead(w, who))]
    case FinishAbsence(key, seen, sight, now, _) =>
      [Observation(key, Generation(w, RemovalEntry(key)), TargetOf(seen), seen.phase, sight, now,
                   if seen.absenceAt.At? then Ok(seen.absenceAt.time) else Fail, LatestRead(w, who))]
    case _ => []
  }

  function WriteStep(w: World, who: nat, op: Op, fault: Fault): World
    requires who in w.controllers
  {
    var c := w.controllers[who];
    var swap := CompareAndSwap(c.memory, w.stored, Perform(op, c.memory), fault);
    var opening := Opening(op);
    World(
      swap.stored,
      w.controllers[who := Controller(swap.memory, AfterWrite(w, c, op, swap.ok))],
      if swap.committed then Advance(w.generations, Retired(op, w.stored)) else w.generations,
      if swap.committed && opening.Ok?
      then w.issues[opening.value.1 := (opening.value.0, Generation(w, EntryOf(opening.value.0)))] else w.issues,
      w.sent,
      if swap.committed then w.observations + Sighting(w, who, op) else w.observations,
      w.readings,
      w.latest - {who})
  }

  function SendStep(w: World, who: nat, blocked: bool): World
    requires who in w.controllers && w.controllers[who].activity.Holding?
  {
    var c := w.controllers[who];
    if blocked then
      w.(controllers := w.controllers[who := c.(activity := Blocked(c.activity.ticket))], latest := w.latest - {who})
    else
      w.(controllers := w.controllers[who := c.(activity := Idle)], sent := w.sent + [c.activity.ticket],
         latest := w.latest - {who})
  }

  function Step(w: World, e: Event): World {
    if !Possible(w, e) then w
    else
      match e
      case Restart(who, memory) =>
        w.(controllers := w.controllers[who := Controller(memory, Idle)], latest := w.latest - {who})
      case Look(who, target, sight) =>
        w.(readings := w.readings + [Reading(target, sight, |w.observations|)], latest := w.latest[who := |w.readings|])
      case Write(who, op, fault) => WriteStep(w, who, op, fault)
      case Send(who, blocked) => SendStep(w, who, blocked)
  }

  function Run(w: World, events: seq<Event>): World
    decreases |events|
  {
    if events == [] then w else Run(Step(w, events[0]), events[1..])
  }

  lemma {:induction false} RunJoins(w: World, a: seq<Event>, b: seq<Event>)
    ensures Run(w, a + b) == Run(Run(w, a), b)
    decreases |a|
  {
    if a == [] {
      assert a + b == b;
    } else {
      RunJoins(Step(w, a[0]), a[1..], b);
      assert (a + b)[1..] == a[1..] + b;
    }
  }

  // ----- the authority invariant -----

  predicate Holds(w: World, who: nat, t: Ticket) {
    who in w.controllers && w.controllers[who].activity == Holding(t)
  }

  predicate Engaged(w: World, who: nat) {
    who in w.controllers && !w.controllers[who].activity.Idle?
  }

  /** The call was sent, or some controller may still send it. */
  ghost predicate Potent(w: World, t: Ticket) {
    t in w.sent || exists who :: Holds(w, who, t)
  }

  predicate Registered(w: World, t: Ticket) {
    && t.id in w.issues && w.issues[t.id] == (t.slot, t.generation)
    && t.generation <= Generation(w, EntryOf(t.slot))
  }

  /** An engaged controller works on a registered ticket, and an issue identity that is live in
      its memory for that slot is its own. */
  predicate MemoryAgrees(w: World, who: nat)
    requires Engaged(w, who)
  {
    var c := w.controllers[who];
    && Registered(w, c.activity.ticket)
    && (LiveIssue(c.memory, c.activity.ticket.slot).Ok? ==>
          LiveIssue(c.memory, c.activity.ticket.slot).value == c.activity.ticket.id)
  }

  ghost predicate MemoriesAgree(w: World) {
    forall who :: Engaged(w, who) ==> MemoryAgrees(w, who)
  }

  ghost predicate TicketsDistinct(w: World) {
    && (forall i, j :: Engaged(w, i) && Engaged(w, j) && i != j ==>
          w.controllers[i].activity.ticket.id != w.controllers[j].activity.ticket.id)
    && (forall who, i :: Engaged(w, who) && 0 <= i < |w.sent| ==> w.controllers[who].activity.ticket.id != w.sent[i].id)
  }

  predicate SentDistinct(w: World) {
    && (forall i, j :: 0 <= i < j < |w.sent| ==> w.sent[i].id != w.sent[j].id)
    && (forall i :: 0 <= i < |w.sent| ==> Registered(w, w.sent[i]))
  }

  /** In one generation of a slot at most one issue identity was sent or can be sent. */
  ghost predicate OnePotent(w: World) {
    forall t, u :: Potent(w, t) && Potent(w, u) && t.slot == u.slot && t.generation == u.generation ==> t.id == u.id
  }

  /** What was sent or can be sent in the current generation is what the ledger accounts for. */
  ghost predicate Accounted(w: World) {
    forall t :: Potent(w, t) && t.generation == Generation(w, EntryOf(t.slot)) ==> Accounts(w.stored, t.slot, t.id)
  }

  ghost predicate Safe(w: World) {
    MemoriesAgree(w) && TicketsDistinct(w) && SentDistinct(w) && OnePotent(w) && Accounted(w)
  }

  // ----- preservation, one event at a time -----

  /** Fewer potent tickets over the same ledger keep the two ledger-wide conditions. */
  lemma FewerPotent(w: World, w': World)
    requires OnePotent(w) && Accounted(w)
    requires forall t :: Potent(w', t) ==> Potent(w, t)
    requires w'.stored == w.stored && w'.generations == w.generations
    ensures OnePotent(w') && Accounted(w')
  {
  }

  lemma RestartKeepsSafe(w: World, who: nat, memory: Status)
    requires Safe(w)
    ensures Safe(Step(w, Restart(who, memory)))
  {
    var w' := Step(w, Restart(who, memory));
    forall t | Potent(w', t) ensures Potent(w, t) {
      if t !in w'.sent { var p :| Holds(w', p, t); assert Holds(w, p, t); }
    }
    FewerPotent(w, w');
    forall p | Engaged(w', p) ensures Engaged(w, p) && w'.controllers[p] == w.controllers[p] {}
  }

  lemma LookKeepsSafe(w: World, who: nat, target: Target, sight: Sight)
    requires Safe(w)
    ensures Safe(Step(w, Look(who, target, sight)))
  {
    var w' := Step(w, Look(who, target, sight));
    forall t | Potent(w', t) ensures Potent(w, t) {
      if t !in w'.sent { var p :| Holds(w', p, t); assert Holds(w, p, t); }
    }
    FewerPotent(w, w');
    forall p | Engaged(w', p) ensures MemoryAgrees(w', p) { assert Engaged(w, p) && MemoryAgrees(w, p); }
    assert TicketsDistinct(w') by { assert forall p :: Engaged(w', p) <==> Engaged(w, p); }
  }

  lemma SendShrinksPotent(w: World, who: nat, blocked: bool, t: Ticket)
    requires Possible(w, Send(who, blocked))
    requires Potent(SendStep(w, who, blocked), t)
    ensures Potent(w, t)
  {
    var w' := SendStep(w, who, blocked);
    var ticket := w.controllers[who].activity.ticket;
    assert Holds(w, who, ticket);
    if t in w'.sent {
      assert t in w.sent || t == ticket;
    } else {
      var p :| Holds(w', p, t);
      assert Holds(w, p, t);
    }
  }

  lemma SendKeepsTickets(w: World, who: nat, blocked: bool)
    requires MemoriesAgree(w) && TicketsDistinct(w) && SentDistinct(w)
    requires Possible(w, Send(who, blocked))
    ensures MemoriesAgree(SendStep(w, who, blocked)) && TicketsDistinct(SendStep(w, who, blocked))
    ensures SentDistinct(SendStep(w, who, blocked))
  {
    var w' := SendStep(w, who, blocked);
    assert Engaged(w, who) && MemoryAgrees(w, who);
    forall p | Engaged(w', p)
      ensures Engaged(w, p) && w'.controllers[p].activity.ticket == w.controllers[p].activity.ticket
      ensures w'.controllers[p].memory == w.controllers[p].memory && (!blocked ==> p != who)
    {}
    forall p | Engaged(w', p) ensures MemoryAgrees(w', p) {
      assert MemoryAgrees(w, p);
    }
  }

  lemma SendKeepsSafe(w: World, who: nat, blocked: bool)
    requires Safe(w)
    ensures Safe(Step(w, Send(who, blocked)))
  {
    if Possible(w, Send(who, blocked)) {
      var w' := SendStep(w, who, blocked);
      forall t | Potent(w', t) ensures Potent(w, t) { SendShrinksPotent(w, who, blocked, t); }
      FewerPotent(w, w');
      SendKeepsTickets(w, who, blocked);
    }
  }

  lemma AdvanceAt(w: World, retired: set<Entry>, e: Entry)
    ensures var g := Advance(w.generations, retired);
            (if e in g then g[e] else 0) == Generation(w, e) + (if e in retired then 1 else 0)
  {
  }

  ghost predicate Attempt(w: World, who: nat, op: Op) {
    Safe(w) && who in w.controllers && MayAttempt(w, who, op)
  }

  function SwapOf(w: World, who: nat, op: Op, fault: Fault): Swap
    requires who in w.controllers
  {
    CompareAndSwap(w.controllers[who].memory, w.stored, Perform(op, w.controllers[who].memory), fault)
  }

  /** The ticket a write grants to its controller. */
  predicate Grants(w: World, who: nat, op: Op, fault: Fault, t: Ticket)
    requires who in w.controllers
  {
    && Opening(op).Ok? && SwapOf(w, who, op, fault).ok
    && t == Ticket(Opening(op).value.0, Generation(w, EntryOf(Opening(op).value.0)), Opening(op).value.1)
  }

  lemma WriteGenerations(w: World, who: nat, op: Op, fault: Fault, e: Entry)
    requires who in w.controllers
    ensures var committed := SwapOf(w, who, op, fault).committed;
            Generation(WriteStep(w, who, op, fault), e)
            == Generation(w, e) + (if committed && e in Retired(op, w.stored) then 1 else 0)
  {
    AdvanceAt(w, Retired(op, w.stored), e);
  }

  /** An issue grant that is reported as a success is a commit of that very transition. */
  lemma GrantCommits(w: World, who: nat, op: Op, fault: Fault)
    requires who in w.controllers && Opening(op).Ok? && SwapOf(w, who, op, fault).ok
    ensures var swap := SwapOf(w, who, op, fault);
            swap.committed && Perform(op, w.stored) == Ok(swap.stored) && swap.memory == swap.stored
            && Opens(op, Opening(op).value.0, Opening(op).value.1)
  {
    var c := w.controllers[who];
    var (slot, id) := Opening(op).value;
    assert Opens(op, slot, id);
    if Perform(op, c.memory).Ok? {
      OpensFromUnaccounted(op, c.memory, Perform(op, c.memory).value, slot, id);
    }
  }

  lemma WriteKeepsRegistered(w: World, who: nat, op: Op, fault: Fault, t: Ticket)
    requires Attempt(w, who, op) && Registered(w, t)
    ensures Registered(WriteStep(w, who, op, fault), t)
  {
    WriteGenerations(w, who, op, fault, EntryOf(t.slot));
  }

  lemma PotentIsRegistered(w: World, t: Ticket)
    requires Safe(w) && Potent(w, t)
    ensures Registered(w, t)
  {
    if t !in w.sent {
      var p :| Holds(w, p, t);
      assert Engaged(w, p) && MemoryAgrees(w, p);
    }
  }

  lemma WritePotent(w: World, who: nat, op: Op, fault: Fault, t: Ticket)
    requires Attempt(w, who, op) && Potent(WriteStep(w, who, op, fault), t)
    ensures Potent(w, t) || Grants(w, who, op, fault, t)
  {
    var w' := WriteStep(w, who, op, fault);
    if t !in w.sent {
      var p :| Holds(w', p, t);
      if p != who || !Grants(w, who, op, fault, t) { assert Holds(w, p, t); }
    }
  }

  /** Handing a slot back never leaves the identity it had sent or sendable. */
  lemma ClosedIsNotPotent(w: World, who: nat, op: Op, fault: Fault, t: Ticket)
    requires Attempt(w, who, op) && Closes(op, t.slot)
    requires LiveIssue(w.controllers[who].memory, t.slot) == Ok(t.id)
    ensures !Potent(WriteStep(w, who, op, fault), t)
  {
    var w' := WriteStep(w, who, op, fault);
    assert Engaged(w, who) && MemoryAgrees(w, who);
    assert w.controllers[who].activity.ticket.id == t.id;
    forall p ensures !Holds(w', p, t) {
      if Holds(w', p, t) && p != who { assert Engaged(w, p); }
    }
  }

  lemma WriteKeepsAccounted(w: World, who: nat, op: Op, fault: Fault)
    requires Attempt(w, who, op)
    ensures Accounted(WriteStep(w, who, op, fault))
  {
    var w' := WriteStep(w, who, op, fault);
    var swap := SwapOf(w, who, op, fault);
    forall t | Potent(w', t) && t.generation == Generation(w', EntryOf(t.slot))
        ensures Accounts(w'.stored, t.slot, t.id) {
      WritePotent(w, who, op, fault, t);
      if Grants(w, who, op, fault, t) {
        GrantCommits(w, who, op, fault);
        OpensFromUnaccounted(op, w.stored, w'.stored, t.slot, t.id);
      } else {
        PotentIsRegistered(w, t);
        WriteGenerations(w, who, op, fault, EntryOf(t.slot));
        assert Accounts(w.stored, t.slot, t.id);
        if swap.committed {
          AccountsKept(op, w.stored, w'.stored, t.slot, t.id);
          if Closes(op, t.slot) && LiveIssue(w.stored, t.slot) == Ok(t.id) { ClosedIsNotPotent(w, who, op, fault, t); }
        }
      }
    }
  }

  lemma GrantIsAlone(w: World, who: nat, op: Op, fault: Fault, t: Ticket, u: Ticket)
    requires Attempt(w, who, op) && Grants(w, who, op, fault, t)
    requires Potent(w, u) && u.slot == t.slot
    ensures u.generation != t.generation
  {
    if u.generation == t.generation {
      assert Accounts(w.stored, u.slot, u.id);
      GrantCommits(w, who, op, fault);
      OpensFromUnaccounted(op, w.stored, SwapOf(w, who, op, fault).stored, t.slot, t.id);
      assert false;
    }
  }

  lemma WriteKeepsOnePotent(w: World, who: nat, op: Op, fault: Fault)
    requires Attempt(w, who, op)
    ensures OnePotent(WriteStep(w, who, op, fault))
  {
    var w' := WriteStep(w, who, op, fault);
    forall t, u | Potent(w', t) && Potent(w', u) && t.slot == u.slot && t.generation == u.generation
        ensures t.id == u.id {
      WritePotent(w, who, op, fault, t);
      WritePotent(w, who, op, fault, u);
      if Grants(w, who, op, fault, t) && !Grants(w, who, op, fault, u) { GrantIsAlone(w, who, op, fault, t, u); }
      if Grants(w, who, op, fault, u) && !Grants(w, who, op, fault, t) { GrantIsAlone(w, who, op, fault, u, t); }
    }
  }

  /** A controller that was just granted a ticket has that very identity live in its memory. */
  lemma GrantKeepsMemory(w: World, who: nat, op: Op, fault: Fault)
    requires Attempt(w, who, op) && Opening(op).Ok? && Engaged(WriteStep(w, who, op, fault), who)
    ensures MemoryAgrees(WriteStep(w, who, op, fault), who)
  {
    var w' := WriteStep(w, who, op, fault);
    var t := w'.controllers[who].activity.ticket;
    GrantCommits(w, who, op, fault);
    WriteGenerations(w, who, op, fault, EntryOf(t.slot));
    OpensFromUnaccounted(op, w.stored, w'.stored, t.slot, t.id);
  }

  lemma WriteKeepsMemory(w: World, who: nat, op: Op, fault: Fault, p: nat)
    requires Attempt(w, who, op) && Engaged(WriteStep(w, who, op, fault), p)
    ensures MemoryAgrees(WriteStep(w, who, op, fault), p)
  {
    if p == who && Opening(op).Ok? {
      GrantKeepsMemory(w, who, op, fault);
    } else {
      var w' := WriteStep(w, who, op, fault);
      var t := w'.controllers[p].activity.ticket;
      assert Engaged(w, p) && MemoryAgrees(w, p) && w.controllers[p].activity.ticket == t;
      WriteKeepsRegistered(w, who, op, fault, t);
      if p == who && SwapOf(w, who, op, fault).ok && LiveIssue(w'.controllers[p].memory, t.slot).Ok? {
        LiveIssueOrigin(op, w.controllers[p].memory, w'.controllers[p].memory, t.slot);
      }
    }
  }

  lemma WriteKeepsTickets(w: World, who: nat, op: Op, fault: Fault)
    requires Attempt(w, who, op)
    ensures TicketsDistinct(WriteStep(w, who, op, fault)) && SentDistinct(WriteStep(w, who, op, fault))
  {
    var w' := WriteStep(w, who, op, fault);
    forall i | 0 <= i < |w.sent| ensures Registered(w', w.sent[i]) {
      WriteKeepsRegistered(w, who, op, fault, w.sent[i]);
    }
    forall p | Engaged(w', p)
      ensures p != who || Opening(op).Fail? ==>
                Engaged(w, p) && w'.controllers[p].activity.ticket == w.controllers[p].activity.ticket
      ensures p == who && Opening(op).Ok? ==> w'.controllers[p].activity.ticket.id !in w.issues
    {}
    forall p | Engaged(w, p) ensures w.controllers[p].activity.ticket.id in w.issues {
      assert MemoryAgrees(w, p);
    }
  }

  lemma WriteKeepsSafe(w: World, who: nat, op: Op, fault: Fault)
    requires Safe(w)
    ensures Safe(Step(w, Write(who, op, fault)))
  {
    if Possible(w, Write(who, op, fault)) {
      var w' := WriteStep(w, who, op, fault);
      forall p | Engaged(w', p) ensures MemoryAgrees(w', p) { WriteKeepsMemory(w, who, op, fault, p); }
      WriteKeepsTickets(w, who, op, fault);
      WriteKeepsOnePotent(w, who, op, fault);
      WriteKeepsAccounted(w, who, op, fault);
    }
  }

  lemma StepKeepsSafe(w: World, e: Event)
    requires Safe(w)
    ensures Safe(Step(w, e))
  {
    match e
    case Restart(who, memory) => RestartKeepsSafe(w, who, memory);
    case Look(who, target, sight) => LookKeepsSafe(w, who, target, sight);
    case Write(who, op, fault) => WriteKeepsSafe(w, who, op, fault);
    case Send(who, blocked) => SendKeepsSafe(w, who, blocked);
  }

  lemma {:induction false} RunKeepsSafe(w: World, events: seq<Event>)
    requires Safe(w)
    ensures Safe(Run(w, events))
    decreases |events|
  {
    if events != [] {
      StepKeepsSafe(w, events[0]);
      RunKeepsSafe(Step(w, events[0]), events[1..]);
    }
  }

  // ----- what every run keeps -----

  /** In every run, at most one call per slot and generation reaches the provider. */
  lemma AtMostOneCall(events: seq<Event>, i: nat, j: nat)
    requires i < j < |Run(INITIAL, events).sent|
    ensures var sent := Run(INITIAL, events).sent;
            sent[i].slot != sent[j].slot || sent[i].generation != sent[j].generation
  {
    var w := Run(INITIAL, events);
    RunKeepsSafe(INITIAL, events);
    assert Potent(w, w.sent[i]) && Potent(w, w.sent[j]);
  }

  /** The slot can be issued again: its create receipt is missing, or at intent, rejected or
      adopted; its removal receipt is missing or has not reached the issued phase. */
  predicate Reopenable(s: Status, slot: Slot) {
    match slot
    case CreateSlot(key) => key !in s.creates || s.creates[key].phase in {Intent, Rejected, Adopted, UnknownPhase}
    case RemovalSlot(key, action) => key !in s.removals || Rank(s.removals[key].phase) < Rank(action.IssuedPhase())
  }

  /** Such a receipt proves that in this generation nothing was sent and nobody can still send. */
  lemma ReopenableMeansUnsent(events: seq<Event>, t: Ticket)
    requires var w := Run(INITIAL, events);
             Reopenable(w.stored, t.slot) && t.generation == Generation(w, EntryOf(t.slot))
    ensures var w := Run(INITIAL, events);
            t !in w.sent && forall who :: !Holds(w, who, t)
  {
    RunKeepsSafe(INITIAL, events);
    var w := Run(INITIAL, events);
    assert !Accounts(w.stored, t.slot, t.id);
    assert !Potent(w, t);
  }

  /** While a controller holds a right, no call of that slot and generation was sent, and no other
      controller can send one. */
  lemma RightIsExclusive(events: seq<Event>, who: nat, t: Ticket, u: Ticket)
    requires Holds(Run(INITIAL, events), who, t) && u.slot == t.slot && u.generation == t.generation
    ensures u !in Run(INITIAL, events).sent && forall other :: Holds(Run(INITIAL, events), other, u) ==> other == who
  {
    RunKeepsSafe(INITIAL, events);
    var w := Run(INITIAL, events);
    assert Engaged(w, who) && Potent(w, t);
    if Potent(w, u) { assert u.id == t.id; }
    forall other | Holds(w, other, u) ensures other == who { assert Engaged(w, other) && Potent(w, u); }
  }
}

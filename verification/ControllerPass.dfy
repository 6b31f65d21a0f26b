/** The controller's mutation procedures, written as the source runs them: persist, re-read
    authority, call, read back, record. Cloud answers, store faults and the writes of other
    controllers are arbitrary. Every procedure leaves a trace of its writes, calls and decisive
    reads; every trace obeys a discipline, and a disciplined trace is a part of a run. */
module ControllerPass {
  import opened Outcomes
  import opened Text
  import opened Ledger
  import opened LedgerRules
  import opened LedgerRuns
  import opened StatusStore

  // ----- traces and their discipline -----

  datatype FirewallView = FirewallView(uuid: string, vms: set<string>)

  datatype Mark =
    | Wrote(op: Op, ok: bool)                                // a ledger transition and its reported result
    | Called(slot: Slot, blocked: bool)                      // a mutating cloud call; blocked means never sent
    | Looked(target: Target, sight: Sight)                   // an inventory read of a removal target and its answer
    | Saw(view: FirewallView)                                // a read showed this firewall with these VMs assigned
    | SawName(resource: string, vm: string, named: bool)     // a read showed the VM's address with or without its name

  predicate IsRead(m: Mark) { m.Saw? || m.SawName? }

  /** What the controller may do next: nothing special, send a granted call, or record that the
      granted call was blocked locally. */
  datatype Stage = AtRest | Granted(slot: Slot) | Stopped(slot: Slot)

  predicate Allowed(stage: Stage, m: Mark) {
    match m
    case Called(slot, _) => stage == Granted(slot)
    case Wrote(op, _) =>
      && WellFormed(op)
      && (match op
          case ResetIssue(key, _, _, _) => stage == Granted(CreateSlot(key))
          case Reject(key, _, _, _) => stage == Stopped(CreateSlot(key))
          case ResetRemoval(key, action) =>
              stage == Granted(RemovalSlot(key, action)) || stage == Stopped(RemovalSlot(key, action))
          case _ => true)
    case _ => true
  }

  /** An absence is written only directly after the read that showed it, of what the receipt is about. */
  predicate Follows(marks: seq<Mark>, m: Mark) {
    m.Wrote? && RecordsRead(m.op) ==> marks != [] && marks[|marks| - 1] == Looked(TargetOf(m.op.seen), m.op.sight)
  }

  function After(stage: Stage, m: Mark): Stage {
    match m
    case Called(slot, blocked) => if blocked then Stopped(slot) else AtRest
    case Wrote(op, ok) =>
      if Opening(op).Ok? then (if ok then Granted(Opening(op).value.0) else AtRest)
      else if op.ResetIssue? || op.ResetRemoval? then AtRest
      else stage
    case _ => stage
  }

  function StageOf(marks: seq<Mark>): Stage {
    if marks == [] then AtRest else After(StageOf(marks[..|marks| - 1]), marks[|marks| - 1])
  }

  predicate Disciplined(marks: seq<Mark>) {
    marks == [] ||
    var before, m := marks[..|marks| - 1], marks[|marks| - 1];
    Disciplined(before) && Allowed(StageOf(before), m) && Follows(before, m)
  }

  /** What a mark does to the controller's copy of the ledger. */
  function Effect(s: Status, m: Mark): Status {
    if m.Wrote? && m.ok && Perform(m.op, s).Ok? then Perform(m.op, s).value else s
  }

  /** The controller's copy of the ledger after a trace. */
  function Replay(start: Status, marks: seq<Mark>): Status {
    if marks == [] then start else Effect(Replay(start, marks[..|marks| - 1]), marks[|marks| - 1])
  }

  lemma Append(start: Status, marks: seq<Mark>, m: Mark)
    ensures StageOf(marks + [m]) == After(StageOf(marks), m)
    ensures Disciplined(marks + [m]) <==> Disciplined(marks) && Allowed(StageOf(marks), m) && Follows(marks, m)
    ensures Replay(start, marks + [m]) == Effect(Replay(start, marks), m)
  {
    assert (marks + [m])[..|marks|] == marks;
  }

  lemma {:induction false} DisciplinedAt(start: Status, marks: seq<Mark>, n: nat)
    requires Disciplined(marks) && n < |marks|
    ensures Allowed(StageOf(marks[..n]), marks[n]) && StageOf(marks[..n + 1]) == After(StageOf(marks[..n]), marks[n])
    ensures Replay(start, marks[..n + 1]) == Effect(Replay(start, marks[..n]), marks[n])
            && Follows(marks[..n], marks[n])
  {
    assert marks[..n + 1][..n] == marks[..n];
    if n < |marks| - 1 {
      var rest := marks[..|marks| - 1];
      DisciplinedAt(start, rest, n);
      assert rest[..n] == marks[..n] && rest[..n + 1] == marks[..n + 1];
    } else {
      assert marks[..n + 1] == marks;
    }
  }

  // ----- a disciplined trace is a part of a run -----

  function ActivityStage(a: Activity): Stage {
    match a
    case Idle => AtRest
    case Holding(t) => Granted(t.slot)
    case Blocked(t) => Stopped(t.slot)
  }

  /** The event that a write, call or read of a removal target stands for in a world. The store decides whether a
      write is reported as a success, and minted identities are fresh. */
  predicate Matches(w: World, who: nat, m: Mark, e: Event)
    requires who in w.controllers
  {
    match m
    case Wrote(op, ok) =>
      && e.Write? && e.who == who && e.op == op && SwapOf(w, who, op, e.fault).ok == ok
      && (Opening(op).Ok? ==> Opening(op).value.1 !in w.issues)
    case Called(slot, blocked) => e == Send(who, blocked)
    case Looked(target, sight) => e == Look(who, target, sight)
    case _ => false
  }

  /** Every mark the discipline allows is a possible event of the run model, and both agree on
      what the controller may do afterwards. */
  lemma AllowedMarkIsPossible(w: World, who: nat, stage: Stage, m: Mark, e: Event)
    requires who in w.controllers && ActivityStage(w.controllers[who].activity) == stage
    requires Allowed(stage, m) && Matches(w, who, m, e) && (m.Wrote? && RecordsRead(m.op) ==> JustRead(w, who, m.op))
    ensures Possible(w, e)
    ensures who in Step(w, e).controllers && ActivityStage(Step(w, e).controllers[who].activity) == After(stage, m)
  {
  }

  lemma MarkMovesMemory(w: World, who: nat, m: Mark, e: Event)
    requires who in w.controllers && Matches(w, who, m, e) && Possible(w, e)
    ensures who in Step(w, e).controllers && Step(w, e).controllers[who].memory == Effect(w.controllers[who].memory, m)
  {
  }

  /** Whatever the other controllers do in between, it leaves this controller's memory, right and
      latest read alone. */
  lemma OthersLeaveStage(w: World, who: nat, e: Event)
    requires who in w.controllers && e.who != who
    ensures who in Step(w, e).controllers && Step(w, e).controllers[who] == w.controllers[who]
    ensures who in w.latest ==> who in Step(w, e).latest && Step(w, e).latest[who] == w.latest[who]
    ensures w.readings <= Step(w, e).readings
  {
  }

  /** From position n on, this controller's events among `events` are the writes and calls of the
      trace, in order; all other events belong to other controllers. */
  ghost predicate Interleaves(w: World, who: nat, marks: seq<Mark>, n: nat, events: seq<Event>)
    decreases |events| + (if n <= |marks| then |marks| - n else 0)
  {
    && n <= |marks|
    && if n < |marks| && IsRead(marks[n]) then Interleaves(w, who, marks, n + 1, events)
       else if events == [] then n == |marks|
       else if events[0].who != who then Interleaves(Step(w, events[0]), who, marks, n, events[1..])
       else n < |marks| && who in w.controllers && Matches(w, who, marks[n], events[0])
            && Interleaves(Step(w, events[0]), who, marks, n + 1, events[1..])
  }

  /** The slots of the trace's calls, from position n on, that were not blocked locally. */
  function Calls(marks: seq<Mark>, n: nat): seq<Slot>
    decreases if n <= |marks| then |marks| - n else 0
  {
    if n >= |marks| then []
    else (if marks[n].Called? && !marks[n].blocked then [marks[n].slot] else []) + Calls(marks, n + 1)
  }

  /** Where in the run's list of sent calls this controller's calls are. */
  function Sends(w: World, who: nat, events: seq<Event>): seq<nat>
    decreases |events|
  {
    if events == [] then []
    else (if events[0] == Send(who, false) && Possible(w, events[0]) then [|w.sent|] else [])
         + Sends(Step(w, events[0]), who, events[1..])
  }

  /** Every event of this controller is one the run model lets happen. */
  ghost predicate OwnEventsHappen(w: World, who: nat, events: seq<Event>)
    decreases |events|
  {
    events == [] || ((events[0].who == who ==> Possible(w, events[0]))
        && OwnEventsHappen(Step(w, events[0]), who, events[1..]))
  }

  lemma {:induction false} SentGrows(w: World, events: seq<Event>)
    ensures w.sent <= Run(w, events).sent
    decreases |events|
  {
    if events != [] { SentGrows(Step(w, events[0]), events[1..]); }
  }

  lemma {:induction false} SendsAreLater(w: World, who: nat, events: seq<Event>)
    ensures forall a :: 0 <= a < |Sends(w, who, events)| ==>
              |w.sent| <= Sends(w, who, events)[a] < |Run(w, events).sent|
    ensures forall a, b :: 0 <= a < b < |Sends(w, who, events)| ==> Sends(w, who, events)[a] < Sends(w, who, events)[b]
    decreases |events|
  {
    if events != [] {
      SendsAreLater(Step(w, events[0]), who, events[1..]);
      SentGrows(Step(w, events[0]), events[1..]);
    }
  }

  /** The calls of the trace are, one for one and in order, this controller's entries in `sent`. */
  ghost predicate CallsAreSent(w: World, who: nat, marks: seq<Mark>, n: nat, events: seq<Event>) {
    var calls, at, sent := Calls(marks, n), Sends(w, who, events), Run(w, events).sent;
    |calls| == |at| && forall a :: 0 <= a < |calls| ==> at[a] < |sent| && sent[at[a]].slot == calls[a]
  }

  /** The controller in this world stands where the first n marks of its trace left it. */
  ghost predicate StandsAt(w: World, who: nat, start: Status, marks: seq<Mark>, n: nat)
    requires n <= |marks|
  {
    && who in w.controllers
    && w.controllers[who].memory == Replay(start, marks[..n])
       && ActivityStage(w.controllers[who].activity) == StageOf(marks[..n])
    && (0 < n && marks[n - 1].Looked? ==> LatestIs(w, who, marks[n - 1].target, marks[n - 1].sight))
  }

  predicate LatestIs(w: World, who: nat, target: Target, sight: Sight) {
    && who in w.latest && w.latest[who] < |w.readings|
    && w.readings[w.latest[who]].target == target && w.readings[w.latest[who]].sight == sight
  }

  /** The next write or call of a disciplined trace happens and takes the controller one mark further. */
  lemma OwnStep(w: World, who: nat, start: Status, marks: seq<Mark>, n: nat, e: Event)
    requires Disciplined(marks) && n < |marks| && StandsAt(w, who, start, marks, n) && Matches(w, who, marks[n], e)
    ensures Possible(w, e) && StandsAt(Step(w, e), who, start, marks, n + 1)
    ensures marks[n].Called? ==>
              w.controllers[who].activity.Holding? && w.controllers[who].activity.ticket.slot == marks[n].slot
  {
    DisciplinedAt(start, marks, n);
    AllowedMarkIsPossible(w, who, StageOf(marks[..n]), marks[n], e);
    MarkMovesMemory(w, who, marks[n], e);
  }

  lemma OthersStep(w: World, who: nat, start: Status, marks: seq<Mark>, n: nat, e: Event)
    requires n <= |marks| && StandsAt(w, who, start, marks, n) && e.who != who
    ensures StandsAt(Step(w, e), who, start, marks, n)
  {
    OthersLeaveStage(w, who, e);
  }

  lemma OthersKeepCalls(w: World, who: nat, marks: seq<Mark>, n: nat, events: seq<Event>)
    requires events != [] && events[0].who != who && CallsAreSent(Step(w, events[0]), who, marks, n, events[1..])
    ensures CallsAreSent(w, who, marks, n, events)
  {
  }

  /** A whole disciplined trace, interleaved in any way with the events of other controllers: all its
      writes and calls happen in the run, its unblocked calls are exactly what it sends, and it ends
      with the memory that the trace explains. */
  lemma {:induction false} TraceIsRun(w: World, who: nat, start: Status, marks: seq<Mark>, n: nat, events: seq<Event>)
    requires Disciplined(marks) && n <= |marks| && StandsAt(w, who, start, marks, n)
             && Interleaves(w, who, marks, n, events)
    ensures OwnEventsHappen(w, who, events) && CallsAreSent(w, who, marks, n, events)
    ensures StandsAt(Run(w, events), who, start, marks, |marks|)
    decreases |events| + |marks| - n
  {
    if n < |marks| && IsRead(marks[n]) {
      DisciplinedAt(start, marks, n);
      TraceIsRun(w, who, start, marks, n + 1, events);
    } else if events != [] {
      var e, w' := events[0], Step(w, events[0]);
      if e.who != who {
        OthersStep(w, who, start, marks, n, e);
        TraceIsRun(w', who, start, marks, n, events[1..]);
        OthersKeepCalls(w, who, marks, n, events);
      } else {
        OwnStep(w, who, start, marks, n, e);
        TraceIsRun(w', who, start, marks, n + 1, events[1..]);
        OneCallMore(w, who, marks, n, events);
      }
    }
  }

  lemma OneCallMore(w: World, who: nat, marks: seq<Mark>, n: nat, events: seq<Event>)
    requires n < |marks| && events != [] && who in w.controllers && Matches(w, who, marks[n], events[0])
             && Possible(w, events[0])
    requires marks[n].Called? ==>
               w.controllers[who].activity.Holding? && w.controllers[who].activity.ticket.slot == marks[n].slot
    requires CallsAreSent(Step(w, events[0]), who, marks, n + 1, events[1..])
    ensures CallsAreSent(w, who, marks, n, events)
  {
    var w' := Step(w, events[0]);
    SentGrows(w', events[1..]);
    if marks[n].Called? && !marks[n].blocked {
      assert w'.sent[|w.sent|].slot == marks[n].slot;
      assert Calls(marks, n) == [marks[n].slot] + Calls(marks, n + 1);
      assert Sends(w, who, events) == [|w.sent|] + Sends(w', who, events[1..]);
    }
  }

  /** The run that brings a controller up, and everything that happens from then on. */
  function WholeRun(before: seq<Event>, who: nat, memory: Status, events: seq<Event>): seq<Event> {
    before + [Restart(who, memory)] + events
  }

  /** A pass of one controller in any run: every call that its disciplined trace makes is in the run's
      list of sent calls, and no other call of that slot and generation is, by whomever. */
  lemma TracedCallIsTheOnlyOne(before: seq<Event>, who: nat, memory: Status, marks: seq<Mark>, events: seq<Event>,
      a: nat, y: nat)
    requires var w := Run(INITIAL, before + [Restart(who, memory)]);
             && Disciplined(marks) && Interleaves(w, who, marks, 0, events)
             && a < |Calls(marks, 0)| && y < |Run(INITIAL, WholeRun(before, who, memory, events)).sent|
    ensures var w := Run(INITIAL, before + [Restart(who, memory)]);
            var sent, at := Run(INITIAL, WholeRun(before, who, memory, events)).sent, Sends(w, who, events);
            && |at| == |Calls(marks, 0)| && at[a] < |sent| && sent[at[a]].slot == Calls(marks, 0)[a]
            && (y != at[a] && sent[y].slot == sent[at[a]].slot ==> sent[y].generation != sent[at[a]].generation)
  {
    var w := Run(INITIAL, before + [Restart(who, memory)]);
    RunJoins(INITIAL, before, [Restart(who, memory)]);
    JustRestarted(Run(INITIAL, before), who, memory);
    RunJoins(INITIAL, before + [Restart(who, memory)], events);
    assert marks[..0] == [];
    TraceIsRun(w, who, memory, marks, 0, events);
    var x, all := Sends(w, who, events)[a], WholeRun(before, who, memory, events);
    if y < x { AtMostOneCall(all, y, x); }
    if x < y { AtMostOneCall(all, x, y); }
  }

  lemma JustRestarted(w: World, who: nat, memory: Status)
    ensures var w' := Run(w, [Restart(who, memory)]);
            who in w'.controllers && w'.controllers[who] == Controller(memory, Idle)
  {
    assert [Restart(who, memory)][1..] == [];
    assert Run(w, [Restart(who, memory)]) == Run(Step(w, Restart(who, memory)), []);
  }

  /** Within one pass a slot is called twice only in two generations. */
  lemma PassRepeatsOnlyAcrossGenerations(before: seq<Event>, who: nat, memory: Status, marks: seq<Mark>,
      events: seq<Event>, a: nat, b: nat)
    requires var w := Run(INITIAL, before + [Restart(who, memory)]);
             && Disciplined(marks) && Interleaves(w, who, marks, 0, events)
             && a < b < |Calls(marks, 0)| && Calls(marks, 0)[a] == Calls(marks, 0)[b]
    ensures var w := Run(INITIAL, before + [Restart(who, memory)]);
            var sent, at := Run(INITIAL, WholeRun(before, who, memory, events)).sent, Sends(w, who, events);
            && |at| == |Calls(marks, 0)| && at[a] < |sent| && at[b] < |sent|
               && sent[at[a]].generation != sent[at[b]].generation
  {
    var w := Run(INITIAL, before + [Restart(who, memory)]);
    SendsAreLater(w, who, events);
    RunJoins(INITIAL, before, [Restart(who, memory)]);
    JustRestarted(Run(INITIAL, before), who, memory);
    RunJoins(INITIAL, before + [Restart(who, memory)], events);
    assert marks[..0] == [];
    TraceIsRun(w, who, memory, marks, 0, events);
    TracedCallIsTheOnlyOne(before, who, memory, marks, events, a, Sends(w, who, events)[b]);
  }

  /** The trace of recording an intent, being granted the call and sending it. */
  function CallTrace(intent: Op, issue: Op, slot: Slot): seq<Mark> {
    [Wrote(intent, true), Wrote(issue, true), Called(slot, false)]
  }

  lemma CallTraceIsDisciplined(intent: Op, issue: Op, slot: Slot)
    requires intent.PersistIntent? && issue.PersistIssue? && IsIssueID(issue.id) && slot == CreateSlot(issue.key)
    ensures Disciplined(CallTrace(intent, issue, slot)) && Calls(CallTrace(intent, issue, slot), 0) == [slot]
  {
    var marks := CallTrace(intent, issue, slot);
    Append(EMPTY, [], marks[0]);
    Append(EMPTY, marks[..1], marks[1]);
    Append(EMPTY, marks[..2], marks[2]);
    assert [] + [marks[0]] == marks[..1] && marks[..1] + [marks[1]] == marks[..2] && marks[..2] + [marks[2]] == marks;
    assert Calls(marks, 2) == [slot] + Calls(marks, 3) && Calls(marks, 1) == Calls(marks, 2);
  }

  lemma IntentStep(w: World, who: nat, intent: Op)
    requires who in w.controllers && w.controllers[who] == Controller(w.stored, Idle) && intent.PersistIntent?
             && intent.key !in w.stored.creates
    ensures var w' := Step(w, Write(who, intent, NoFault));
            && Matches(w, who, Wrote(intent, true), Write(who, intent, NoFault))
            && who in w'.controllers && w'.controllers[who] == Controller(w'.stored, Idle) && w'.issues == w.issues
            && w'.stored == PutCreate(w.stored, intent.key,
               CreateAttempt(intent.kind, intent.name, intent.hash, Intent, "", NoStamp, ""))
  {
    var recorded :=
        PutCreate(w.stored, intent.key, CreateAttempt(intent.kind, intent.name, intent.hash, Intent, "", NoStamp, ""));
    assert intent.key in recorded.creates;
  }

  lemma IssueStep(w: World, who: nat, issue: Op)
    requires who in w.controllers && w.controllers[who] == Controller(w.stored, Idle)
    requires issue.PersistIssue? && issue.id !in w.issues && MayIssue(w.stored, issue.key, issue.kind, issue.name)
    requires Lookup(w.stored, issue.key, issue.kind, issue.name, issue.hash).Ok?
             && w.stored.creates[issue.key].phase == Intent
    ensures Matches(w, who, Wrote(issue, true), Write(who, issue, NoFault))
    ensures who in Step(w, Write(who, issue, NoFault)).controllers
  {
  }

  lemma IntentAllowsIssue(s: Status, key: string, a: CreateAttempt, kind: CreateKind, name: string)
    requires MayIssue(s, key, kind, name)
    ensures MayIssue(PutCreate(s, key, a), key, kind, name)
  {
  }

  lemma InterleavesOneMore(w: World, who: nat, marks: seq<Mark>, n: nat, e: Event, rest: seq<Event>)
    requires n < |marks| && !IsRead(marks[n]) && e.who == who && who in w.controllers && Matches(w, who, marks[n], e)
    requires Interleaves(Step(w, e), who, marks, n + 1, rest)
    ensures Interleaves(w, who, marks, n, [e] + rest)
  {
    assert ([e] + rest)[0] == e && ([e] + rest)[1..] == rest;
  }

  lemma IssueThenSend(w: World, who: nat, intent: Op, issue: Op)
    requires who in w.controllers && w.controllers[who] == Controller(w.stored, Idle)
    requires issue.PersistIssue? && issue.id !in w.issues && MayIssue(w.stored, issue.key, issue.kind, issue.name)
    requires Lookup(w.stored, issue.key, issue.kind, issue.name, issue.hash).Ok?
             && w.stored.creates[issue.key].phase == Intent
    ensures Interleaves(w, who, CallTrace(intent, issue, CreateSlot(issue.key)), 1,
            [Write(who, issue, NoFault), Send(who, false)])
  {
    var marks := CallTrace(intent, issue, CreateSlot(issue.key));
    IssueStep(w, who, issue);
    InterleavesOneMore(Step(w, Write(who, issue, NoFault)), who, marks, 2, Send(who, false), []);
    InterleavesOneMore(w, who, marks, 1, Write(who, issue, NoFault), [Send(who, false)]);
  }

  /** Such traces and runs exist: over any stored ledger, a controller that holds it and finds a slot
      free can record the intent, be granted the call and send it; an assignment slot needs that no
      other unresolved assignment blocks it. */
  lemma FreeSlotCanBeCalled(
    w: World, who: nat, key: string, kind: CreateKind, name: string, hash: string, id: string, now: int)
    requires who in w.controllers && w.controllers[who] == Controller(w.stored, Idle) && key !in w.stored.creates
    requires MayIssue(w.stored, key, kind, name) && IsIssueID(id) && id !in w.issues
    ensures var intent, issue := PersistIntent(key, kind, name, hash), PersistIssue(key, kind, name, hash, id, now);
            var marks := CallTrace(intent, issue, CreateSlot(key));
            && Disciplined(marks) && Calls(marks, 0) == [CreateSlot(key)]
            && Interleaves(w, who, marks, 0,
               [Write(who, intent, NoFault), Write(who, issue, NoFault), Send(who, false)])
  {
    var intent, issue := PersistIntent(key, kind, name, hash), PersistIssue(key, kind, name, hash, id, now);
    var marks := CallTrace(intent, issue, CreateSlot(key));
    CallTraceIsDisciplined(intent, issue, CreateSlot(key));
    IntentStep(w, who, intent);
    IntentAllowsIssue(w.stored, key, CreateAttempt(kind, name, hash, Intent, "", NoStamp, ""), kind, name);
    IssueThenSend(Step(w, Write(who, intent, NoFault)), who, intent, issue);
    InterleavesOneMore(w, who, marks, 0, Write(who, intent, NoFault), [Write(who, issue, NoFault), Send(who, false)]);
  }

  // ----- one pass -----

  datatype Authority = Unproven | Missing | Present

  /** A fresh read of one firewall. */
  datatype FirewallLook = NoAnswer | NotListed | Listed(view: FirewallView)

  class Pass {
    const keeper: Ledgerkeeper
    const start: Status
    var marks: seq<Mark>

    constructor (keeper: Ledgerkeeper)
      ensures this.keeper == keeper && start == keeper.status && marks == [] && Fine()
    {
      this.keeper := keeper;
      start := keeper.status;
      marks := [];
    }

    /** The trace is disciplined and explains the controller's copy of the ledger. */
    ghost predicate Fine()
      reads this, keeper
    {
      Disciplined(marks) && keeper.status == Replay(start, marks)
    }

    /** Note a read. */
    method Note(m: Mark)
      requires Fine() && IsRead(m)
      modifies this`marks
      ensures Fine() && marks == old(marks) + [m] && StageOf(marks) == StageOf(old(marks))
    {
      Append(start, marks, m);
      marks := marks + [m];
    }

    /** Persist one transition while other controllers write the same file and the store fails
        where it likes. A success that changed anything is what the file now holds. */
    method Persist(op: Op) returns (ok: bool)
      requires Fine() && Allowed(StageOf(marks), Wrote(op, true)) && Follows(marks, Wrote(op, true))
      modifies this`marks, keeper`status, keeper.file`status
      ensures Fine() && marks == old(marks) + [Wrote(op, ok)]
              && StageOf(marks) == After(StageOf(old(marks)), Wrote(op, ok))
      ensures ok ==> Perform(op, old(keeper.status)) == Ok(keeper.status)
      ensures !ok ==> keeper.status == old(keeper.status)
      ensures keeper.status != old(keeper.status) ==> keeper.file.status == keeper.status
    {
      var others: Status := *;
      keeper.file.status := others;
      var fault: Fault := *;
      ok := keeper.Persist(op, fault);
      Append(start, marks, Wrote(op, ok));
      marks := marks + [Wrote(op, ok)];
    }

    /** Send the granted call, or find it blocked before it left. */
    method Call(slot: Slot) returns (blocked: bool)
      requires Fine() && StageOf(marks) == Granted(slot)
      modifies this`marks
      ensures Fine() && marks == old(marks) + [Called(slot, blocked)] && StageOf(marks) == if blocked
              then Stopped(slot) else AtRest
    {
      blocked := *;
      Append(start, marks, Called(slot, blocked));
      marks := marks + [Called(slot, blocked)];
    }

    /** An inventory read of a removal target: unreadable, or what it showed. Only addresses can be
        found unassigned. */
    method ReadTarget(target: Target) returns (look: Outcome<Sight>)
      requires Fine()
      modifies this`marks
      ensures Fine() && StageOf(marks) == StageOf(old(marks))
      ensures marks == if look.Ok? then old(marks) + [Looked(target, look.value)] else old(marks)
      ensures look == Ok(Unassigned) ==> target.AddressTarget?
    {
      var answered: bool, sight: Sight := *, *;
      if !answered || (sight == Unassigned && !target.AddressTarget?) {
        return Fail;
      }
      Append(start, marks, Looked(target, sight));
      marks := marks + [Looked(target, sight)];
      return Ok(sight);
    }

    /** The firewall as a readback shows it. */
    method Inspect(uuid: string) returns (view: FirewallView)
      requires Fine()
      modifies this`marks
      ensures Fine() && StageOf(marks) == StageOf(old(marks))
      ensures view.uuid == uuid && marks == old(marks) + [Saw(view)]
    {
      var vms: set<string> := *;
      view := FirewallView(uuid, vms);
      Note(Saw(view));
    }

    /** A fresh read of one firewall: unreadable, not listed, or listed with its assignments. */
    method ReadFirewall(uuid: string) returns (look: FirewallLook)
      requires Fine()
      modifies this`marks
      ensures Fine() && StageOf(marks) == StageOf(old(marks))
      ensures look.Listed? ==> look.view.uuid == uuid
      ensures marks == if look.Listed? then old(marks) + [Saw(look.view)] else old(marks)
    {
      var answer: Authority := *;
      if answer == Unproven {
        return NoAnswer;
      }
      if answer == Missing {
        return NotListed;
      }
      var view := Inspect(uuid);
      return Listed(view);
    }

    /** A fresh read of the exact relation: unproven, absent, or present. */
    method ReadRelation(firewall: string, vm: string) returns (r: Outcome<bool>)
      requires Fine()
      modifies this`marks
      ensures Fine() && StageOf(marks) == StageOf(old(marks))
      ensures r.Fail? ==> marks == old(marks)
      ensures r.Ok? ==> |marks| == |old(marks)| + 1 && old(marks) <= marks && marks[|old(marks)|].Saw?
      ensures r.Ok? ==> (r.value <==> Shows(marks[|old(marks)|], firewall, vm))
    {
      var look := ReadFirewall(firewall);
      if look.Listed? {
        return Ok(vm in look.view.vms);
      }
      return Fail;
    }

    /** A fresh read of a VM's address: unproven, without the wanted name, or carrying it. */
    method ReadName(resource: string, vm: string) returns (state: Authority)
      requires Fine()
      modifies this`marks
      ensures Fine() && StageOf(marks) == StageOf(old(marks))
      ensures marks == if state == Unproven then old(marks) else old(marks) + [SawName(resource, vm, state == Present)]
    {
      state := *;
      if state != Unproven {
        Note(SawName(resource, vm, state == Present));
      }
    }
  }

  /** A fresh identity for one granted call: sixteen random bytes in hexadecimal. */
  method MintIssue() returns (id: string)
    ensures IsIssueID(id)
  {
    assert IsIssueID("00000000000000000000000000000000");
    id :| IsIssueID(id);
  }

  // ----- what a part of a trace established -----

  predicate Shows(m: Mark, firewall: string, vm: string) {
    m.Saw? && m.view.uuid == firewall && vm in m.view.vms
  }

  /** The receipt under `key` is anchored to this UUID for exactly this intent. */
  predicate AnchoredTo(s: Status, key: string, kind: CreateKind, name: string, hash: string, uuid: string) {
    && Lookup(s, key, kind, name, hash).Ok?
    && (s.creates[key].phase == Materialized || s.creates[key].phase == Adopted)
    && EqualFold(s.creates[key].uuid, uuid)
  }

  /** The assignment receipt under `key` is anchored for exactly this relation. */
  predicate Recorded(s: Status, key: string, name: string, hash: string) {
    Lookup(s, key, FirewallAssignment, name, hash).Ok?
        && (s.creates[key].phase == Materialized || s.creates[key].phase == Adopted)
  }

  /** Since `lo`, this firewall was read with exactly these assignments. */
  ghost predicate ReadSince(marks: seq<Mark>, lo: nat, view: FirewallView) {
    exists i: nat :: lo <= i < |marks| && marks[i] == Saw(view)
  }

  /** Between two points of a trace the ledger held this receipt, anchored to this UUID. */
  ghost predicate AnchoredIn(start: Status, marks: seq<Mark>, lo: nat, hi: nat, key: string, kind: CreateKind,
      name: string, hash: string, uuid: string) {
    exists s: nat :: lo <= s <= hi && s <= |marks| && AnchoredTo(Replay(start, marks[..s]), key, kind, name, hash, uuid)
  }

  /** Between two points of a trace a read showed this VM behind this firewall, and from then on
      or later the ledger held exactly that relation as anchored. */
  ghost predicate RelationIn(start: Status, marks: seq<Mark>, lo: nat, hi: nat, key: string, firewall: string,
      vm: string, hash: string) {
    exists r: nat, s: nat :: lo <= r < s <= hi && s <= |marks| && Shows(marks[r], firewall, vm)
                             && Recorded(Replay(start, marks[..s]), key, firewall + "/" + vm, hash)
  }

  lemma AnchoredNow(start: Status, marks: seq<Mark>, lo: nat, key: string, kind: CreateKind, name: string,
      hash: string, uuid: string)
    requires lo <= |marks| && AnchoredTo(Replay(start, marks), key, kind, name, hash, uuid)
    ensures AnchoredIn(start, marks, lo, |marks|, key, kind, name, hash, uuid)
  {
    assert marks[..|marks|] == marks;
  }

  lemma RelationNow(start: Status, marks: seq<Mark>, lo: nat, r: nat, key: string, firewall: string, vm: string,
      hash: string)
    requires lo <= r < |marks| && Shows(marks[r], firewall, vm)
             && Recorded(Replay(start, marks), key, firewall + "/" + vm, hash)
    ensures RelationIn(start, marks, lo, |marks|, key, firewall, vm, hash)
  {
    assert marks[..|marks|] == marks;
  }

  lemma AnchorStays(start: Status, a: seq<Mark>, b: seq<Mark>, lo: nat, hi: nat, to: nat, h: nat,
                    key: string, kind: CreateKind, name: string, hash: string, uuid: string)
    requires a <= b && to <= lo && hi <= h && hi <= |a| && AnchoredIn(start, a, lo, hi, key, kind, name, hash, uuid)
    ensures AnchoredIn(start, b, to, h, key, kind, name, hash, uuid)
  {
    var s: nat :| lo <= s <= hi && s <= |a| && AnchoredTo(Replay(start, a[..s]), key, kind, name, hash, uuid);
    assert a[..s] == b[..s];
  }

  lemma RelationStays(start: Status, a: seq<Mark>, b: seq<Mark>, lo: nat, hi: nat, to: nat, h: nat,
                      key: string, firewall: string, vm: string, hash: string)
    requires a <= b && to <= lo && hi <= h && hi <= |a| && RelationIn(start, a, lo, hi, key, firewall, vm, hash)
    ensures RelationIn(start, b, to, h, key, firewall, vm, hash)
  {
    var r: nat, s: nat :| lo <= r < s <= hi && s <= |a| && Shows(a[r], firewall, vm)
                          && Recorded(Replay(start, a[..s]), key, firewall + "/" + vm, hash);
    assert a[..s] == b[..s] && a[r] == b[r];
  }

  lemma ReadStays(a: seq<Mark>, b: seq<Mark>, lo: nat, view: FirewallView)
    requires a <= b && ReadSince(a, lo, view)
    ensures ReadSince(b, lo, view)
  {
    var i: nat :| lo <= i < |a| && a[i] == Saw(view);
    assert b[i] == a[i];
  }

  /** `b` continues `a`, and its new create-side calls are for the given ledger keys only. */
  ghost predicate CreatesOnly(a: seq<Mark>, b: seq<Mark>, keys: set<string>) {
    a <= b && forall i :: |a| <= i < |b| && b[i].Called? && b[i].slot.CreateSlot? ==> b[i].slot.key in keys
  }

  lemma CreatesOnlyThen(a: seq<Mark>, b: seq<Mark>, c: seq<Mark>, s: set<string>, t: set<string>)
    requires CreatesOnly(a, b, s) && CreatesOnly(b, c, t)
    ensures CreatesOnly(a, c, s + t)
  {
    forall i | |a| <= i < |c| && c[i].Called? && c[i].slot.CreateSlot? ensures c[i].slot.key in s + t {
      if i < |b| { assert c[i] == b[i]; }
    }
  }

  /** Transitions that can write the first removal receipt of a VM. */
  predicate WritesVMReceipt(op: Op) { op.EnsureVMRemoval? || op.PersistRollback? }

  /** Nothing in this part of the trace writes a new VM receipt or deletes a firewall. */
  ghost predicate Calm(a: seq<Mark>, b: seq<Mark>) {
    && a <= b
    && forall i: nat :: |a| <= i < |b| ==>
         !(b[i].Wrote? && WritesVMReceipt(b[i].op))
             && !(b[i].Called? && b[i].slot.RemovalSlot? && b[i].slot.action == DeleteFirewall)
  }

  lemma CalmTwice(a: seq<Mark>, b: seq<Mark>, c: seq<Mark>)
    requires Calm(a, b) && Calm(b, c)
    ensures Calm(a, c)
  {
    assert forall i: nat :: |a| <= i < |b| ==> c[i] == b[i];
  }
}
